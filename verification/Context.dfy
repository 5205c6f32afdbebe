/** The shutdown protocol of crates/context/src/lib.rs for one handler. */
module Context {
  // The protocol is `ContextTrackerInner`, the drop of a `ContextTracker`, and the calls `cancel`,
  // `shutdown`, `done` and `wait`.  Every atomic operation is one step, taken in some sequentially
  // consistent order.  A run is any finite sequence of step requests; a request that is not
  // enabled changes nothing.

  import opened Semaphore

  // ---------------------------------------------------------------- data model

  /** A `ContextTracker`: `LastOut` has decremented the count from 1 and not yet read `stopped`,
      `Notifying` has read `stopped` as true and not yet called `notify_waiters`. */
  datatype Tracker = Alive | LastOut | Notifying | Gone

  datatype Kind = Cancel | Shutdown | Done | Wait

  /** The next atomic operation of a call. */
  datatype Pc = Stopping | Cancelling | AwaitingToken | Registering | Loading | Blocked | Returned

  /** A call on the handler.  `covered` records whether `stopped` was set when the call decided
      to block, `notified` that its `Notified` future has fired, and `sawZero` that at some
      instant of the call no context was alive. */
  datatype Call = Call(kind: Kind, pc: Pc, covered: bool, notified: bool, sawZero: bool)

  datatype State = State(
    stopped: bool, active: nat, tokenCancelled: bool, parentCancelled: bool,
    trackers: seq<Tracker>, calls: seq<Call>)

  const INIT := State(false, 0, false, false, [], [])

  datatype Step =
    | NewContext                 // `Handler::context`, `new_child`: `child()` increments the count
    | Clone(tracker: nat)        // `Context::clone` of a live context
    | Decrement(tracker: nat)    // drop: `fetch_sub`
    | CheckStopped(tracker: nat) // drop: `stopped.load`
    | Notify(tracker: nat)       // drop: `notify_waiters`
    | CancelParent               // a parent token is cancelled
    | Enter(kind: Kind)          // a call starts
    | Advance(call: nat)         // a call performs its next operation

  predicate IsAlive(t: Tracker) {
    t.Alive?
  }

  predicate Enabled(s: State, step: Step) {
    match step
    case NewContext => true
    case Clone(i) => i < |s.trackers| && s.trackers[i].Alive?
    case Decrement(i) => i < |s.trackers| && s.trackers[i].Alive? && s.active > 0
    case CheckStopped(i) => i < |s.trackers| && s.trackers[i].LastOut?
    case Notify(i) => i < |s.trackers| && s.trackers[i].Notifying?
    case CancelParent => true
    case Enter(_) => true
    case Advance(c) =>
      c < |s.calls| && match s.calls[c].pc
                       case AwaitingToken => s.tokenCancelled
                       case Blocked => s.calls[c].notified
                       case Returned => false
                       case _ => true
  }

  function FirstPc(kind: Kind): Pc {
    match kind
    case Cancel => Stopping
    case Shutdown => Stopping
    case Done => AwaitingToken
    case Wait => Registering
  }

  /** The state and the call after the next operation of the call. */
  function Operate(s: State, call: Call): (State, Call) {
    match call.pc
    case Stopping => (s.(stopped := true), call.(pc := Cancelling))
    case Cancelling => (s.(tokenCancelled := true),
                        call.(pc := if call.kind.Cancel? then Returned else AwaitingToken))
    case AwaitingToken => (s, call.(pc := Registering))
    case Registering => (s, call.(pc := Loading, notified := false))
    case Loading => (s, if s.active == 0 then call.(pc := Returned) else call.(pc := Blocked, covered := s.stopped))
    case Blocked => (s, call.(pc := Returned))
    case Returned => (s, call)
  }

  /** `notify_waiters` fires every `Notified` future created before it. */
  function NotifyCall(call: Call): Call {
    if call.pc.Loading? || call.pc.Blocked? then call.(notified := true) else call
  }

  /** Bookkeeping of `sawZero` after a step. */
  function Observe(s: State): State {
    s.(calls := seq(|s.calls|, i requires 0 <= i < |s.calls| =>
         if s.calls[i].pc.Returned? || s.active > 0 then s.calls[i] else s.calls[i].(sawZero := true)))
  }

  function Next(s: State, step: Step): State {
    if !Enabled(s, step) then s
    else Observe(
      match step
      case NewContext => s.(trackers := s.trackers + [Alive], active := s.active + 1)
      case Clone(_) => s.(trackers := s.trackers + [Alive], active := s.active + 1)
      case Decrement(i) =>
        s.(trackers := s.trackers[i := if s.active == 1 then LastOut else Gone], active := s.active - 1)
      case CheckStopped(i) => s.(trackers := s.trackers[i := if s.stopped then Notifying else Gone])
      case Notify(i) =>
        s.(trackers := s.trackers[i := Gone],
           calls := seq(|s.calls|, j requires 0 <= j < |s.calls| => NotifyCall(s.calls[j])))
      case CancelParent => s.(tokenCancelled := true, parentCancelled := true)
      case Enter(kind) => s.(calls := s.calls + [Call(kind, FirstPc(kind), false, false, false)])
      case Advance(c) =>
        var (t, call) := Operate(s, s.calls[c]);
        t.(calls := s.calls[c := call]))
  }

  // ---------------------------------------------------------------- the object

  /** The handler, updated in place; every method is one atomic operation. */
  class Handler {
    var stopped: bool
    var activeCount: nat
    var tokenCancelled: bool
    var parentCancelled: bool
    var trackers: seq<Tracker>
    var calls: seq<Call>

    function Current(): State
      reads this
    {
      State(stopped, activeCount, tokenCancelled, parentCancelled, trackers, calls)
    }

    constructor ()
      ensures Current() == INIT
    {
      stopped, activeCount, tokenCancelled, parentCancelled, trackers, calls := false, 0, false, false, [], [];
    }

    /** The bookkeeping after an operation. */
    method Record()
      modifies this`calls
      ensures Current() == Observe(old(Current()))
    {
      ghost var after := Observe(Current()).calls;
      for i := 0 to |calls|
        invariant |calls| == |after|
        invariant forall j :: 0 <= j < i ==> calls[j] == after[j]
        invariant forall j :: i <= j < |calls| ==> calls[j] == old(calls)[j]
      {
        if !calls[i].pc.Returned? && activeCount == 0 {
          calls := calls[i := calls[i].(sawZero := true)];
        }
      }
      assert calls == after;
    }

    /** `child`: `fetch_add` on the count. */
    method Child(ghost step: Step) returns (tracker: nat)
      requires (step.NewContext? || step.Clone?) && Enabled(Current(), step)
      modifies this
      ensures Current() == Next(old(Current()), step)
      ensures tracker == |old(trackers)| < |trackers| && trackers[tracker].Alive?
    {
      tracker := |trackers|;
      activeCount := activeCount + 1;
      trackers := trackers + [Alive];
      Record();
    }

    /** The first operation of `drop`: `fetch_sub`. */
    method FetchSub(i: nat) returns (last: bool)
      requires Enabled(Current(), Decrement(i))
      modifies this
      ensures Current() == Next(old(Current()), Decrement(i))
      ensures last <==> trackers[i].LastOut?
    {
      var previous := activeCount;
      activeCount := activeCount - 1;
      last := previous == 1;
      trackers := trackers[i := if last then LastOut else Gone];
      Record();
    }

    /** The second operation of `drop`: `stopped.load`. */
    method LoadStopped(i: nat) returns (notifies: bool)
      requires Enabled(Current(), CheckStopped(i))
      modifies this
      ensures Current() == Next(old(Current()), CheckStopped(i))
      ensures notifies <==> trackers[i].Notifying?
    {
      notifies := stopped;
      trackers := trackers[i := if notifies then Notifying else Gone];
      Record();
    }

    /** The third operation of `drop`: `notify_waiters`. */
    method NotifyWaiters(i: nat)
      requires Enabled(Current(), Notify(i))
      modifies this
      ensures Current() == Next(old(Current()), Notify(i))
    {
      ghost var before := calls;
      ghost var after := seq(|before|, j requires 0 <= j < |before| => NotifyCall(before[j]));
      for k := 0 to |calls|
        invariant |calls| == |after| && Current() == old(Current()).(calls := calls)
        invariant forall j :: 0 <= j < k ==> calls[j] == after[j]
        invariant forall j :: k <= j < |calls| ==> calls[j] == before[j]
      {
        if calls[k].pc.Loading? || calls[k].pc.Blocked? {
          calls := calls[k := calls[k].(notified := true)];
        }
      }
      assert calls == after;
      trackers := trackers[i := Gone];
      Record();
    }

    method EnterCall(kind: Kind) returns (c: nat)
      modifies this
      ensures Current() == Next(old(Current()), Enter(kind))
      ensures c == |old(calls)|
    {
      c := |calls|;
      calls := calls + [Call(kind, FirstPc(kind), false, false, false)];
      Record();
    }

    /** The next operation of `cancel`, `shutdown`, `done` or `wait`. */
    method AdvanceCall(c: nat)
      requires Enabled(Current(), Advance(c))
      modifies this
      ensures Current() == Next(old(Current()), Advance(c))
    {
      var call := calls[c];
      match call.pc {
        case Stopping =>
          stopped := true;
          call := call.(pc := Cancelling);
        case Cancelling =>
          tokenCancelled := true;
          call := call.(pc := if call.kind.Cancel? then Returned else AwaitingToken);
        case AwaitingToken =>
          call := call.(pc := Registering);
        case Registering =>
          call := call.(pc := Loading, notified := false);
        case Loading =>
          call := if activeCount == 0 then call.(pc := Returned) else call.(pc := Blocked, covered := stopped);
        case Blocked =>
          call := call.(pc := Returned);
      }
      calls := calls[c := call];
      Record();
    }

    method CancelParentToken()
      modifies this
      ensures Current() == Next(old(Current()), CancelParent)
    {
      tokenCancelled, parentCancelled := true, true;
      Record();
    }

    method Perform(step: Step)
      modifies this
      ensures Current() == Next(old(Current()), step)
    {
      if Enabled(Current(), step) {
        match step {
          case NewContext => var _ := Child(step);
          case Clone(_) => var _ := Child(step);
          case Decrement(i) => var _ := FetchSub(i);
          case CheckStopped(i) => var _ := LoadStopped(i);
          case Notify(i) => NotifyWaiters(i);
          case CancelParent => CancelParentToken();
          case Enter(kind) => var _ := EnterCall(kind);
          case Advance(c) => AdvanceCall(c);
        }
      }
    }
  }

  /** Any interleaving of operations on a handler object ends in a state of the protocol, in which
      no blocked `shutdown` is without somebody bound to wake it. */
  method Execute(steps: seq<Step>) returns (final: State)
    ensures final == Run(INIT, steps)
    ensures forall c :: 0 <= c < |final.calls| && final.calls[c].kind.Shutdown? ==> !Stranded(final, c)
  {
    var h := new Handler();
    assert steps[..0] == [];
    for i := 0 to |steps|
      invariant h.Current() == Run(INIT, steps[..i])
    {
      assert steps[..i + 1] == steps[..i] + [steps[i]];
      RunAppend(INIT, steps[..i], [steps[i]]);
      h.Perform(steps[i]);
    }
    assert steps[..|steps|] == steps;
    final := h.Current();
    forall c | 0 <= c < |final.calls| && final.calls[c].kind.Shutdown? ensures !Stranded(final, c) {
      ShutdownIsNeverStranded(steps, c);
    }
  }

  // ---------------------------------------------------------------- runs

  function Run(s: State, steps: seq<Step>): State
    decreases |steps|
  {
    if steps == [] then s else Run(Next(s, steps[0]), steps[1..])
  }

  // ---------------------------------------------------------------- invariant

  /** A drop that will certainly call `notify_waiters`. */
  predicate InFlight(s: State, i: nat) {
    i < |s.trackers| && (s.trackers[i].Notifying? || (s.trackers[i].LastOut? && s.stopped))
  }

  ghost predicate Safe(s: State) {
    s.active > 0 || exists i :: InFlight(s, i)
  }

  ghost predicate CallOk(s: State, call: Call) {
    && ((call.kind.Cancel? || call.kind.Shutdown?) && !call.pc.Stopping? ==> s.stopped)
    && (call.pc.Cancelling? ==> s.stopped)
    && (call.pc.Blocked? && call.kind.Shutdown? ==> call.covered)
    && (call.kind.Done? && !call.pc.AwaitingToken? ==> s.tokenCancelled)
    && (call.pc.Blocked? && call.kind.Done? && !s.parentCancelled ==> call.covered)
    && (call.covered ==> s.stopped)
    && (call.pc.Blocked? && call.covered && !call.notified ==> Safe(s))
    && (!call.pc.Returned? && s.active == 0 ==> call.sawZero)
  }

  ghost predicate Inv(s: State) {
    && s.active == Holders(IsAlive, s.trackers)
    && (s.tokenCancelled && !s.parentCancelled ==> s.stopped)
    && (forall i :: 0 <= i < |s.trackers| && s.trackers[i].Notifying? ==> s.stopped)
    && (forall c :: 0 <= c < |s.calls| ==> CallOk(s, s.calls[c]))
  }

  /** What no step may do to a call that sits still: make the state unsafe for it. */
  ghost predicate Keeps(s: State, t: State) {
    && (s.tokenCancelled ==> t.tokenCancelled)
    && (s.parentCancelled ==> t.parentCancelled)
    && (s.stopped ==> t.stopped)
    && (s.stopped && Safe(s) ==> Safe(t))
  }

  lemma ObserveOk(s: State, t: State)
    requires Inv(s) && Keeps(s, t)
    requires t.active == Holders(IsAlive, t.trackers)
    requires t.tokenCancelled && !t.parentCancelled ==> t.stopped
    requires forall i :: 0 <= i < |t.trackers| && t.trackers[i].Notifying? ==> t.stopped
    requires t.calls == s.calls
    ensures Inv(Observe(t))
  {
    var u := Observe(t);
    assert Safe(t) ==> Safe(u) by {
      if t.active == 0 && Safe(t) {
        var i :| InFlight(t, i);
        assert InFlight(u, i);
      }
    }
    forall c | 0 <= c < |u.calls| ensures CallOk(u, u.calls[c]) {
      assert CallOk(s, s.calls[c]);
    }
  }

  /** The count is raised: the new context keeps every waiter safe. */
  lemma ChildOk(s: State, step: Step)
    requires Inv(s) && (step.NewContext? || step.Clone?)
    ensures Inv(Next(s, step))
  {
    if Enabled(s, step) {
      HoldersAppend(IsAlive, s.trackers, Alive);
      ObserveOk(s, s.(trackers := s.trackers + [Alive], active := s.active + 1));
    }
  }

  /** The first two operations of a drop: a waiter that loses its last live context gains a
      drop in flight. */
  lemma DropOk(s: State, step: Step)
    requires Inv(s) && (step.Decrement? || step.CheckStopped?)
    ensures Inv(Next(s, step))
  {
    if Enabled(s, step) {
      var i := step.tracker;
      var x := if step.CheckStopped? then (if s.stopped then Notifying else Gone)
               else if s.active == 1 then LastOut else Gone;
      var t := s.(trackers := s.trackers[i := x], active := if step.Decrement? then s.active - 1 else s.active);
      HoldersUpdate(IsAlive, s.trackers, i, x);
      if s.stopped && Safe(s) && t.active == 0 {
        if step.Decrement? {
          assert InFlight(t, i);
        } else {
          var j :| InFlight(s, j);
          assert InFlight(t, j);
        }
      }
      ObserveOk(s, t);
    }
  }

  lemma NotifyOk(s: State, i: nat)
    requires Inv(s)
    ensures Inv(Next(s, Notify(i)))
  {
    if Enabled(s, Notify(i)) {
      var t := Next(s, Notify(i));
      HoldersUpdate(IsAlive, s.trackers, i, Gone);
      forall c | 0 <= c < |t.calls| ensures CallOk(t, t.calls[c]) {
        assert CallOk(s, s.calls[c]);
      }
    }
  }

  lemma AdvanceOk(s: State, c: nat)
    requires Inv(s)
    ensures Inv(Next(s, Advance(c)))
  {
    if Enabled(s, Advance(c)) {
      var t := Next(s, Advance(c));
      assert Safe(s) ==> Safe(t) by {
        if s.active == 0 && Safe(s) {
          var i :| InFlight(s, i);
          assert InFlight(t, i);
        }
      }
      forall d | 0 <= d < |t.calls| ensures CallOk(t, t.calls[d]) {
        assert CallOk(s, s.calls[d]) && CallOk(s, s.calls[c]);
      }
    }
  }

  lemma EnterOk(s: State, kind: Kind)
    requires Inv(s)
    ensures Inv(Next(s, Enter(kind)))
  {
    var t := Next(s, Enter(kind));
    forall d | 0 <= d < |t.calls| ensures CallOk(t, t.calls[d]) {
      if d < |s.calls| {
        assert CallOk(s, s.calls[d]);
        if Safe(s) && s.active == 0 {
          var i :| InFlight(s, i);
          assert InFlight(t, i);
        }
      }
    }
  }

  lemma NextOk(s: State, step: Step)
    requires Inv(s)
    ensures Inv(Next(s, step))
  {
    match step
    case NewContext => ChildOk(s, step);
    case Clone(i) => ChildOk(s, step);
    case Decrement(i) => DropOk(s, step);
    case CheckStopped(i) => DropOk(s, step);
    case Notify(i) => NotifyOk(s, i);
    case CancelParent =>
      var t := s.(tokenCancelled := true, parentCancelled := true);
      if s.stopped && Safe(s) && s.active == 0 {
        var i :| InFlight(s, i);
        assert InFlight(t, i);
      }
      ObserveOk(s, t);
    case Enter(kind) => EnterOk(s, kind);
    case Advance(c) => AdvanceOk(s, c);
  }

  lemma {:induction false} RunOk(s: State, steps: seq<Step>)
    requires Inv(s)
    ensures Inv(Run(s, steps))
    decreases |steps|
  {
    if steps != [] {
      NextOk(s, steps[0]);
      RunOk(Next(s, steps[0]), steps[1..]);
    }
  }

  // ---------------------------------------------------------------- no lost wakeup

  /** The call is blocked and has not been notified, no context is alive, and no drop is bound to
      notify. */
  ghost predicate Stranded(s: State, c: nat) {
    c < |s.calls| && s.calls[c].pc.Blocked? && !s.calls[c].notified && !Safe(s)
  }

  /** In every reachable state a blocked `shutdown` has been notified already, or a context is
      alive, or a drop in flight will notify; so has a `done`, unless the token was cancelled
      through a parent. */
  lemma ShutdownIsNeverStranded(steps: seq<Step>, c: nat)
    ensures var s := Run(INIT, steps);
            c < |s.calls| && (s.calls[c].kind.Shutdown? || (s.calls[c].kind.Done? && !s.parentCancelled)) ==>
              !Stranded(s, c)
  {
    RunOk(INIT, steps);
  }

  /** Once the last context is gone, at most three further steps return a blocked `shutdown`. */
  lemma ShutdownWakes(steps: seq<Step>, c: nat) returns (i: nat)
    requires var s := Run(INIT, steps);
             c < |s.calls| && s.calls[c].kind.Shutdown? && s.calls[c].pc.Blocked? && s.active == 0
    ensures var t := Run(Run(INIT, steps), [CheckStopped(i), Notify(i), Advance(c)]);
            c < |t.calls| && t.calls[c].pc.Returned?
  {
    var s := Run(INIT, steps);
    RunOk(INIT, steps);
    assert CallOk(s, s.calls[c]);
    if s.calls[c].notified {
      i := |s.trackers|;
    } else {
      i :| InFlight(s, i);
    }
    RunThree(s, CheckStopped(i), Notify(i), Advance(c));
    WakeFrom(s, i, c);
  }

  lemma RunThree(s: State, a: Step, b: Step, d: Step)
    ensures Run(s, [a, b, d]) == Next(Next(Next(s, a), b), d)
  {
    assert [a, b, d][1..] == [b, d];
    RunTwo(Next(s, a), b, d);
  }

  lemma WakeFrom(s: State, i: nat, c: nat)
    requires c < |s.calls| && s.calls[c].pc.Blocked? && (s.calls[c].notified || InFlight(s, i))
    ensures var t := Next(Next(Next(s, CheckStopped(i)), Notify(i)), Advance(c));
            c < |t.calls| && t.calls[c].pc.Returned?
  {
    var s1 := Next(s, CheckStopped(i));
    assert c < |s1.calls| && s1.calls[c].pc.Blocked? && (s1.calls[c].notified || (i < |s1.trackers| && s1.trackers[i].Notifying?));
    var s2 := Next(s1, Notify(i));
    assert c < |s2.calls| && s2.calls[c].pc.Blocked? && s2.calls[c].notified;
  }

  // ---------------------------------------------------------------- exactly which waiters are safe

  /** Drops every context; nobody reads `stopped` as true on the way. */
  function DropAll(n: nat): seq<Step> {
    if n == 0 then [] else DropAll(n - 1) + [Decrement(n - 1), CheckStopped(n - 1)]
  }

  lemma {:induction false} RunAppend(s: State, a: seq<Step>, b: seq<Step>)
    ensures Run(s, a + b) == Run(Run(s, a), b)
    decreases |a|
  {
    if a == [] {
      assert a + b == b;
    } else {
      assert (a + b)[1..] == a[1..] + b;
      RunAppend(Next(s, a[0]), a[1..], b);
    }
  }

  lemma RunTwo(s: State, a: Step, b: Step)
    ensures Run(s, [a, b]) == Next(Next(s, a), b)
  {
    assert [a, b][1..] == [b];
    assert Run(Next(s, a), [b]) == Run(Next(Next(s, a), b), []);
  }

  lemma DropOne(s: State, i: nat, c: nat)
    requires Inv(s) && !s.stopped && i < |s.trackers|
    requires c < |s.calls| && s.calls[c].pc.Blocked? && !s.calls[c].notified
    ensures var t := Next(Next(s, Decrement(i)), CheckStopped(i));
            && Inv(t) && !t.stopped && |t.trackers| == |s.trackers| && t.trackers[i].Gone?
            && (forall j :: 0 <= j < |s.trackers| && j != i ==> t.trackers[j] == s.trackers[j])
            && c < |t.calls| && t.calls[c].pc.Blocked? && !t.calls[c].notified
  {
    if s.trackers[i].Alive? {
      HoldersUpdate(IsAlive, s.trackers, i, Gone);
    }
    NextOk(s, Decrement(i));
    NextOk(Next(s, Decrement(i)), CheckStopped(i));
  }

  lemma {:induction false} DropAllStrands(s: State, c: nat, n: nat)
    requires Inv(s) && !s.stopped && n <= |s.trackers|
    requires c < |s.calls| && s.calls[c].pc.Blocked? && !s.calls[c].notified
    ensures var t := Run(s, DropAll(n));
            && Inv(t) && !t.stopped && |t.trackers| == |s.trackers|
            && (forall j :: 0 <= j < n ==> t.trackers[j].Gone?)
            && c < |t.calls| && t.calls[c].pc.Blocked? && !t.calls[c].notified
  {
    if n > 0 {
      DropAllStrands(s, c, n - 1);
      var t := Run(s, DropAll(n - 1));
      RunAppend(s, DropAll(n - 1), [Decrement(n - 1), CheckStopped(n - 1)]);
      RunTwo(t, Decrement(n - 1), CheckStopped(n - 1));
      DropOne(t, n - 1, c);
    }
  }

  lemma CoveredNext(s: State, step: Step, c: nat)
    requires c < |s.calls| && ((s.calls[c].pc.Blocked? && s.calls[c].covered) || s.calls[c].pc.Returned?)
    ensures c < |Next(s, step).calls|
    ensures var call := Next(s, step).calls[c]; (call.pc.Blocked? && call.covered) || call.pc.Returned?
  {
  }

  lemma {:induction false} CoveredStays(s: State, steps: seq<Step>, c: nat)
    requires Inv(s) && c < |s.calls| && ((s.calls[c].pc.Blocked? && s.calls[c].covered) || s.calls[c].pc.Returned?)
    ensures var t := Run(s, steps);
            Inv(t) && c < |t.calls| && ((t.calls[c].pc.Blocked? && t.calls[c].covered) || t.calls[c].pc.Returned?)
    decreases |steps|
  {
    if steps != [] {
      NextOk(s, steps[0]);
      CoveredNext(s, steps[0], c);
      CoveredStays(Next(s, steps[0]), steps[1..], c);
    }
  }

  /** Beyond rescue: blocked, not notified, and nothing left that could notify. */
  ghost predicate Lost(s: State, c: nat) {
    && c < |s.calls| && s.calls[c].pc.Blocked? && !s.calls[c].notified
    && s.active == 0 && forall i :: 0 <= i < |s.trackers| ==> s.trackers[i].Gone?
  }

  lemma LostNext(s: State, step: Step, c: nat)
    requires Lost(s, c) && !step.NewContext?
    ensures Lost(Next(s, step), c)
  {
  }

  /** A lost call stays blocked whatever happens, `cancel` included, unless a new context is made. */
  lemma {:induction false} LostStaysLost(s: State, more: seq<Step>, c: nat)
    requires Lost(s, c) && NewContext !in more
    ensures Lost(Run(s, more), c)
    decreases |more|
  {
    if more != [] {
      LostNext(s, more[0], c);
      LostStaysLost(Next(s, more[0]), more[1..], c);
    }
  }

  /** For a call of any kind that is about to block (it has registered and reads a positive
      count): no continuation loses it for good if and only if `stopped` is set at that moment,
      that is, `cancel` was called on this very handler; nor does any continuation even leave it
      without somebody bound to wake it.  `wait` promises to return once all contexts are done
      whether or not the handler is cancelled, and does not. */
  lemma SafeExactlyWhenStopped(steps: seq<Step>, c: nat)
    requires var s := Run(INIT, steps);
             c < |s.calls| && s.calls[c].pc.Loading? && !s.calls[c].notified && s.active > 0
    ensures var s := Run(INIT, steps);
            && ((forall more :: !Lost(Run(Next(s, Advance(c)), more), c)) <==> s.stopped)
            && ((forall more :: !Stranded(Run(Next(s, Advance(c)), more), c)) <==> s.stopped)
  {
    var s := Run(INIT, steps);
    RunOk(INIT, steps);
    var t := Next(s, Advance(c));
    NextOk(s, Advance(c));
    if s.stopped {
      forall more ensures !Stranded(Run(t, more), c) && !Lost(Run(t, more), c) {
        CoveredStays(t, more, c);
        assert Lost(Run(t, more), c) ==> Stranded(Run(t, more), c);
      }
    } else {
      var n := |t.trackers|;
      DropAllStrands(t, c, n);
      var u := Run(t, DropAll(n));
      NobodyAlive(u.trackers);
      assert Lost(u, c) && Stranded(u, c);
    }
  }

  lemma {:induction false} NobodyAlive(trackers: seq<Tracker>)
    requires forall j :: 0 <= j < |trackers| ==> trackers[j].Gone?
    ensures Holders(IsAlive, trackers) == 0
  {
    if trackers != [] {
      NobodyAlive(trackers[..|trackers| - 1]);
    }
  }

  lemma RunStep(s: State, steps: seq<Step>, k: nat)
    requires k < |steps|
    ensures Run(s, steps[k..]) == Run(Next(s, steps[k]), steps[k + 1..])
  {
    assert steps[k..][1..] == steps[k + 1..];
  }

  const HANG: seq<Step> := [NewContext, Enter(Wait), Advance(0), Advance(0), Decrement(0), CheckStopped(0)]

  /** A concrete loss: `wait` blocks, the only context is dropped, nobody notifies, and no later
      call on the handler changes that. */
  lemma PlainWaitCanHang(more: seq<Step>)
    requires NewContext !in more
    ensures Lost(Run(INIT, HANG + more), 0)
  {
    HangRuns();
    RunAppend(INIT, HANG, more);
    LostStaysLost(Run(INIT, HANG), more, 0);
  }

  lemma HangRuns()
    ensures Lost(Run(INIT, HANG), 0)
  {
    RunStep(INIT, HANG, 0);
    var s1 := Next(INIT, NewContext);
    RunStep(s1, HANG, 1);
    var s2 := Next(s1, Enter(Wait));
    RunStep(s2, HANG, 2);
    var s3 := Next(s2, Advance(0));
    RunStep(s3, HANG, 3);
    var s4 := Next(s3, Advance(0));
    assert s4.calls[0] == Call(Wait, Blocked, false, false, false);
    RunStep(s4, HANG, 4);
    var s5 := Next(s4, Decrement(0));
    RunStep(s5, HANG, 5);
    var s6 := Next(s5, CheckStopped(0));
    assert s6.calls[0] == Call(Wait, Blocked, false, false, true) && s6.trackers == [Gone];
    assert HANG[0..] == HANG && Run(s6, HANG[6..]) == s6;
  }

  // ---------------------------------------------------------------- a return means that none was alive

  /** A context is made from the handler although the count has already fallen to zero. */
  predicate Revives(s: State, step: Step) {
    step.NewContext? && s.active == 0 && s.trackers != []
  }

  ghost predicate NoRevival(s: State, steps: seq<Step>)
    decreases |steps|
  {
    steps == [] || (!Revives(s, steps[0]) && NoRevival(Next(s, steps[0]), steps[1..]))
  }

  /** While a last drop is in flight the count is zero. */
  ghost predicate NoneInDrop(s: State) {
    forall i :: 0 <= i < |s.trackers| && (s.trackers[i].LastOut? || s.trackers[i].Notifying?) ==> s.active == 0
  }

  ghost predicate ZeroInv(s: State) {
    Inv(s) && NoneInDrop(s) && forall c :: 0 <= c < |s.calls| ==> ZeroCall(s.calls[c])
  }

  ghost predicate ZeroCall(call: Call) {
    && ((call.pc.Loading? || call.pc.Blocked?) && call.notified ==> call.sawZero)
    && (call.pc.Returned? && !call.kind.Cancel? ==> call.sawZero)
  }

  lemma ZeroCalls(s: State, step: Step)
    requires ZeroInv(s)
    ensures forall c :: 0 <= c < |Next(s, step).calls| ==> ZeroCall(Next(s, step).calls[c])
  {
    forall c | 0 <= c < |Next(s, step).calls| ensures ZeroCall(Next(s, step).calls[c]) {
      if c < |s.calls| {
        assert CallOk(s, s.calls[c]) && ZeroCall(s.calls[c]);
      }
    }
  }

  lemma ZeroTrackers(s: State, step: Step)
    requires ZeroInv(s) && !Revives(s, step)
    ensures NoneInDrop(Next(s, step))
  {
    if (step.Clone? || step.Decrement?) && Enabled(s, step) {
      HoldersUpdate(IsAlive, s.trackers, step.tracker, Gone);
    }
  }

  lemma ZeroNext(s: State, step: Step)
    requires ZeroInv(s) && !Revives(s, step)
    ensures ZeroInv(Next(s, step))
  {
    NextOk(s, step);
    ZeroCalls(s, step);
    ZeroTrackers(s, step);
  }

  lemma {:induction false} ZeroRun(s: State, steps: seq<Step>)
    requires ZeroInv(s) && NoRevival(s, steps)
    ensures ZeroInv(Run(s, steps))
    decreases |steps|
  {
    if steps != [] {
      ZeroNext(s, steps[0]);
      ZeroRun(Next(s, steps[0]), steps[1..]);
    }
  }

  /** If no context is made from the handler once its count has fallen to zero, then a
      `shutdown`, `done` or `wait` that has returned lived through an instant at which no
      context of the handler was alive. */
  lemma ReturnMeansNoneAlive(steps: seq<Step>, c: nat)
    requires NoRevival(INIT, steps)
    requires c < |Run(INIT, steps).calls|
    requires !Run(INIT, steps).calls[c].kind.Cancel? && Run(INIT, steps).calls[c].pc.Returned?
    ensures Run(INIT, steps).calls[c].sawZero
  {
    ZeroRun(INIT, steps);
  }

  /** No drop is between its decrement from one and its end. */
  ghost predicate NoDropInFlight(s: State) {
    forall i :: 0 <= i < |s.trackers| ==> !s.trackers[i].LastOut? && !s.trackers[i].Notifying?
  }

  /** The call has lived through an instant without contexts, or nothing can wake it before one. */
  ghost predicate WillSeeZero(s: State, c: nat) {
    && c < |s.calls|
    && (s.calls[c].sawZero
        || ((s.calls[c].pc.Loading? || s.calls[c].pc.Blocked?) && !s.calls[c].notified && s.active > 0 && NoDropInFlight(s)))
  }

  lemma WillSeeZeroNext(s: State, step: Step, c: nat)
    requires WillSeeZero(s, c)
    ensures WillSeeZero(Next(s, step), c)
  {
  }

  lemma {:induction false} WillSeeZeroRun(s: State, more: seq<Step>, c: nat)
    requires WillSeeZero(s, c)
    ensures WillSeeZero(Run(s, more), c)
    decreases |more|
  {
    if more != [] {
      WillSeeZeroNext(s, more[0], c);
      WillSeeZeroRun(Next(s, more[0]), more[1..], c);
    }
  }

  /** The steps by which a drop in flight wakes call `c` too early: it blocks, somebody cancels,
      and the drop goes on. */
  function EarlyWake(s: State, c: nat, i: nat): seq<Step> {
    [Advance(c), Enter(Cancel), Advance(|s.calls|)] + [CheckStopped(i), Notify(i), Advance(c)]
  }

  lemma EarlyWakeRuns(s: State, c: nat, i: nat)
    requires c < |s.calls| && (s.calls[c].pc.Loading? || s.calls[c].pc.Blocked?)
    requires !s.calls[c].notified && !s.calls[c].sawZero && s.active > 0
    requires i < |s.trackers| && (s.trackers[i].LastOut? || s.trackers[i].Notifying?)
    ensures var t := Run(s, EarlyWake(s, c, i)); c < |t.calls| && t.calls[c].pc.Returned? && !t.calls[c].sawZero
  {
    RunAppend(s, [Advance(c), Enter(Cancel), Advance(|s.calls|)], [CheckStopped(i), Notify(i), Advance(c)]);
    CancelComes(s, c);
    var t := Run(s, [Advance(c), Enter(Cancel), Advance(|s.calls|)]);
    RunThree(t, CheckStopped(i), Notify(i), Advance(c));
    WakeFrom(t, i, c);
    NotSeen(t, [CheckStopped(i), Notify(i), Advance(c)], i, c);
  }

  lemma CancelComes(s: State, c: nat)
    requires c < |s.calls| && (s.calls[c].pc.Loading? || s.calls[c].pc.Blocked?)
    requires !s.calls[c].notified && !s.calls[c].sawZero && s.active > 0
    ensures var t := Run(s, [Advance(c), Enter(Cancel), Advance(|s.calls|)]);
            && t.stopped && t.active == s.active && t.trackers == s.trackers
            && c < |t.calls| && t.calls[c].pc.Blocked? && !t.calls[c].sawZero
  {
    var d := |s.calls|;
    RunThree(s, Advance(c), Enter(Cancel), Advance(d));
    var s1 := Next(s, Advance(c));
    assert s1 == s.(calls := s.calls[c := s1.calls[c]]) && s1.calls[c].pc.Blocked? && !s1.calls[c].sawZero;
    var s2 := Next(s1, Enter(Cancel));
    assert s2 == s1.(calls := s1.calls + [Call(Cancel, Stopping, false, false, false)]);
  }

  /** Checking, notifying and returning do not change the count. */
  lemma NotSeen(s: State, steps: seq<Step>, i: nat, c: nat)
    requires steps == [CheckStopped(i), Notify(i), Advance(c)]
    requires c < |s.calls| && s.calls[c].pc.Blocked? && !s.calls[c].sawZero && s.active > 0
    ensures c < |Run(s, steps).calls| && !Run(s, steps).calls[c].sawZero
  {
    RunThree(s, CheckStopped(i), Notify(i), Advance(c));
    var s1 := Next(s, CheckStopped(i));
    assert s1.active == s.active && c < |s1.calls| && s1.calls[c] == s.calls[c];
    var s2 := Next(s1, Notify(i));
    assert s2.active == s.active && c < |s2.calls| && s2.calls[c].pc.Blocked? && !s2.calls[c].sawZero;
  }

  /** The exact condition, for a call that has registered and sees a positive count: its return is
      certain to mean that at some instant of the call no context was alive if and only if no drop
      is in flight at that moment.  What is made or dropped later does not matter. */
  lemma ReturnSeesZeroExactly(steps: seq<Step>, c: nat)
    requires var s := Run(INIT, steps);
             && c < |s.calls| && (s.calls[c].pc.Loading? || s.calls[c].pc.Blocked?)
             && !s.calls[c].notified && !s.calls[c].sawZero
    ensures var s := Run(INIT, steps);
            (forall more :: var t := Run(s, more);
               c < |t.calls| && (t.calls[c].pc.Returned? ==> t.calls[c].sawZero))
            <==> NoDropInFlight(s)
  {
    var s := Run(INIT, steps);
    RunOk(INIT, steps);
    assert CallOk(s, s.calls[c]);
    if NoDropInFlight(s) {
      forall more ensures var t := Run(s, more); c < |t.calls| && (t.calls[c].pc.Returned? ==> t.calls[c].sawZero) {
        WillSeeZeroRun(s, more, c);
      }
    } else {
      var i :| 0 <= i < |s.trackers| && (s.trackers[i].LastOut? || s.trackers[i].Notifying?);
      EarlyWakeRuns(s, c, i);
    }
  }

  /** `cancel` has set the flag, the last drop is in flight, and a new context is made. */
  const REVIVE: seq<Step> := [NewContext, Enter(Cancel), Advance(0), Decrement(0), NewContext]
  /** A `shutdown` starts and blocks on the new context. */
  const BLOCK: seq<Step> := [Enter(Shutdown), Advance(1), Advance(1), Advance(1), Advance(1), Advance(1)]
  /** The old drop goes on and wakes it. */
  const WAKE: seq<Step> := [CheckStopped(0), Notify(0), Advance(1)]

  const REVIVED := State(true, 1, false, false, [LastOut, Alive], [Call(Cancel, Cancelling, false, false, true)])
  const BLOCKED := REVIVED.(tokenCancelled := true, calls := REVIVED.calls + [Call(Shutdown, Blocked, true, false, false)])

  lemma ReviveRuns()
    ensures Run(INIT, REVIVE) == REVIVED
  {
    assert REVIVE[0..] == REVIVE;
    RunStep(INIT, REVIVE, 0);
    var s1 := Next(INIT, NewContext);
    RunStep(s1, REVIVE, 1);
    var s2 := Next(s1, Enter(Cancel));
    RunStep(s2, REVIVE, 2);
    var s3 := Next(s2, Advance(0));
    assert s3 == State(true, 1, false, false, [Alive], [Call(Cancel, Cancelling, false, false, false)]);
    RunStep(s3, REVIVE, 3);
    var s4 := Next(s3, Decrement(0));
    RunStep(s4, REVIVE, 4);
    assert Next(s4, NewContext) == REVIVED;
  }

  lemma BlockRuns()
    ensures Run(REVIVED, BLOCK) == BLOCKED
  {
    assert BLOCK[0..] == BLOCK;
    RunStep(REVIVED, BLOCK, 0);
    var s1 := Next(REVIVED, Enter(Shutdown));
    RunStep(s1, BLOCK, 1);
    var s2 := Next(s1, Advance(1));
    RunStep(s2, BLOCK, 2);
    var s3 := Next(s2, Advance(1));
    assert s3 == BLOCKED.(calls := REVIVED.calls + [Call(Shutdown, AwaitingToken, false, false, false)]);
    RunStep(s3, BLOCK, 3);
    var s4 := Next(s3, Advance(1));
    RunStep(s4, BLOCK, 4);
    var s5 := Next(s4, Advance(1));
    RunStep(s5, BLOCK, 5);
    assert Next(s5, Advance(1)) == BLOCKED;
  }

  lemma WakeRuns()
    ensures var s := Run(BLOCKED, WAKE);
            && |s.trackers| == |s.calls| == 2 && s.active == 1 && s.trackers[1].Alive?
            && s.calls[1] == Call(Shutdown, Returned, true, true, false)
  {
    assert WAKE[0..] == WAKE;
    RunStep(BLOCKED, WAKE, 0);
    var s1 := Next(BLOCKED, CheckStopped(0));
    RunStep(s1, WAKE, 1);
    var s2 := Next(s1, Notify(0));
    RunStep(s2, WAKE, 2);
    assert Run(Next(s2, Advance(1)), WAKE[3..]) == Next(s2, Advance(1));
  }

  /** With a revival a `shutdown` can return although a context was alive all along: a drop that
      was already in flight wakes it. */
  lemma RevivalBreaksIt()
    ensures var s := Run(INIT, REVIVE + (BLOCK + WAKE));
            && |s.trackers| == |s.calls| == 2 && s.active == 1 && s.trackers[1].Alive?
            && s.calls[1] == Call(Shutdown, Returned, true, true, false)
  {
    RunAppend(INIT, REVIVE, BLOCK + WAKE);
    RunAppend(REVIVED, BLOCK, WAKE);
    ReviveRuns();
    BlockRuns();
    WakeRuns();
  }
}
