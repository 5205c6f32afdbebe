/** No reachable state of the data loader is a dead end. */
module DataLoaderProgress {
  // Whatever has happened, and whatever the outstanding fetches answer, some continuation lets
  // every pending `load_many` return.  In particular a fetch that waits for a permit, a batch that
  // waits for the timer and a call that waits for a token are never stuck for good.

  import opened Wrappers
  import opened BatchTimer
  import opened Semaphore
  import opened DataLoader

  ghost function RunFrom<K, V>(cfg: Config, s: State<K, V>, steps: seq<Step<K, V>>): State<K, V>
    decreases |steps|
  {
    if steps == [] then s else RunFrom(cfg, Next(cfg, s, steps[0]), steps[1..])
  }

  lemma {:induction false} RunFromAppend<K, V>(cfg: Config, s: State<K, V>, a: seq<Step<K, V>>, b: seq<Step<K, V>>)
    ensures RunFrom(cfg, s, a + b) == RunFrom(cfg, RunFrom(cfg, s, a), b)
    decreases |a|
  {
    if a == [] {
      assert a + b == b;
    } else {
      assert (a + b)[1..] == a[1..] + b;
      RunFromAppend(cfg, Next(cfg, s, a[0]), a[1..], b);
    }
  }

  lemma {:induction false} RunContinues<K, V>(cfg: Config, steps: seq<Step<K, V>>, more: seq<Step<K, V>>)
    ensures Exec(cfg, steps + more) == RunFrom(cfg, Exec(cfg, steps), more)
    decreases |more|
  {
    if more == [] {
      assert steps + more == steps;
    } else {
      var first := steps + [more[0]];
      assert first[..|steps|] == steps;
      assert steps + more == first + more[1..];
      RunContinues(cfg, first, more[1..]);
    }
  }

  /** The fetch of batch `b` answers `answers(b)`; nobody submits, panics or gives up. */
  ghost predicate Plain<K, V>(answers: nat -> Option<map<K, V>>, steps: seq<Step<K, V>>) {
    forall i :: 0 <= i < |steps| ==>
      && !steps[i].Submit? && !steps[i].FetchPanics? && !steps[i].Abandon?
      && (steps[i].Store? ==> steps[i].answer == answers(steps[i].batch))
  }

  // ---------------------------------------------------------------- the work that is left

  function Rank(phase: Phase): nat {
    match phase
    case Open => 5
    case Queued => 4
    case Running => 3
    case Stored => 2
    case Released => 1
    case Finished => 0
  }

  function Work<K, V>(batches: seq<Batch<K, V>>): nat {
    if batches == [] then 0 else Work(batches[..|batches| - 1]) + Rank(batches[|batches| - 1].phase)
  }

  lemma {:induction false} WorkUpdate<K, V>(batches: seq<Batch<K, V>>, b: nat, x: Batch<K, V>)
    requires b < |batches|
    ensures Work(batches[b := x]) == Work(batches) - Rank(batches[b].phase) + Rank(x.phase)
  {
    var n := |batches| - 1;
    if b == n {
      assert batches[b := x][..n] == batches[..n];
    } else {
      assert batches[b := x][..n] == batches[..n][b := x];
      WorkUpdate(batches[..n], b, x);
    }
  }

  lemma {:induction false} NoWorkMeansFinished<K, V>(batches: seq<Batch<K, V>>, b: nat)
    requires Work(batches) == 0 && b < |batches|
    ensures batches[b].phase.Finished?
  {
    if b < |batches| - 1 {
      NoWorkMeansFinished(batches[..|batches| - 1], b);
    }
  }

  lemma {:induction false} WorkHasBatch<K, V>(batches: seq<Batch<K, V>>) returns (b: nat)
    requires Work(batches) > 0
    ensures b < |batches| && !batches[b].phase.Finished?
  {
    b := |batches| - 1;
    if batches[b].phase.Finished? {
      b := WorkHasBatch(batches[..b]);
    }
  }

  // ---------------------------------------------------------------- less work

  /** The step that moves a dispatched batch on. */
  function Move<K, V>(phase: Phase, b: nat, answers: nat -> Option<map<K, V>>): Step<K, V> {
    match phase
    case Queued => Grant(b)
    case Running => Store(b, answers(b))
    case Stored => Release(b)
    case _ => Cancel(b)
  }

  /** A dispatched batch moves on, unless it waits for a permit that others hold. */
  lemma BatchMoves<K, V>(cfg: Config, s: State<K, V>, b: nat, answers: nat -> Option<map<K, V>>)
    requires Inv(cfg, s) && b < |s.batches| && !s.batches[b].phase.Open? && !s.batches[b].phase.Finished?
    requires s.batches[b].phase.Queued? ==> s.permits > 0
    ensures var t := Next(cfg, s, Move(s.batches[b].phase, b, answers));
            t.loads == s.loads && Work(t.batches) < Work(s.batches)
  {
    var t := Next(cfg, s, Move(s.batches[b].phase, b, answers));
    assert BatchOk(cfg.Capacity(), s.batches[b]);
    assert t.batches == s.batches[b := t.batches[b]];
    WorkUpdate(s.batches, b, t.batches[b]);
  }

  /** What a turn of the timer does to the open batch of `s`. */
  ghost predicate Turned<K, V>(cfg: Config, s: State<K, V>, t: State<K, V>)
    requires s.current.Some? && s.current.value < |s.batches|
  {
    var due := s.batches[s.current.value].createdAt + cfg.delay;
    && (if t.current.Some? then t.batches == s.batches && t.current == s.current && t.timer.wakeAt == due
        else Work(t.batches) < Work(s.batches))
    && (s.timer.wakeAt == due ==> t.current.None?)
  }

  lemma TimerWakes<K, V>(cfg: Config, s: State<K, V>)
    requires Inv(cfg, s) && s.current.Some? && s.timer.wakeAt <= s.timer.now
    ensures var t := Next(cfg, s, TimerWake); Inv(cfg, t) && t.loads == s.loads && Turned(cfg, s, t)
  {
    NextOk(cfg, s, TimerWake);
    WakeOnTime(s.timer, cfg.delay, cfg.slack, OpenSince(s.batches, s.current));
    var b := s.current.value;
    WorkUpdate(s.batches, b, s.batches[b].(phase := Queued));
  }

  /** Time passes up to the pending wake-up, and the timer wakes. */
  lemma TimerTurn<K, V>(cfg: Config, s: State<K, V>) returns (steps: seq<Step<K, V>>)
    requires Inv(cfg, s) && s.current.Some?
    ensures var t := RunFrom(cfg, s, steps); Inv(cfg, t) && t.loads == s.loads && Turned(cfg, s, t)
    ensures forall i :: 0 <= i < |steps| ==> steps[i].Pass? || steps[i].TimerWake?
  {
    var to := if s.timer.now < s.timer.wakeAt then s.timer.wakeAt else s.timer.now;
    steps := [Pass(to), TimerWake];
    var u := s.(timer := s.timer.(now := to));
    assert Next(cfg, s, Pass(to)) == u && Inv(cfg, u) by {
      NextOk(cfg, s, Pass(to));
    }
    TimerWakes(cfg, u);
    assert RunFrom(cfg, s, steps) == RunFrom(cfg, u, steps[1..]);
    assert RunFrom(cfg, u, steps[1..]) == RunFrom(cfg, Next(cfg, u, TimerWake), steps[1..][1..]);
  }

  /** Two turns of the timer dispatch the open batch. */
  lemma TimerDispatches<K, V>(cfg: Config, s: State<K, V>) returns (steps: seq<Step<K, V>>)
    requires Inv(cfg, s) && s.current.Some?
    ensures var t := RunFrom(cfg, s, steps); Inv(cfg, t) && t.loads == s.loads && Work(t.batches) < Work(s.batches)
    ensures forall i :: 0 <= i < |steps| ==> steps[i].Pass? || steps[i].TimerWake?
  {
    steps := TimerTurn(cfg, s);
    var t := RunFrom(cfg, s, steps);
    if t.current.Some? {
      var again := TimerTurn(cfg, t);
      RunFromAppend(cfg, s, steps, again);
      steps := steps + again;
    }
  }

  /** As long as a batch is unfinished there is a way to do some of the work. */
  lemma SomethingMoves<K, V>(cfg: Config, s: State<K, V>, answers: nat -> Option<map<K, V>>)
    returns (steps: seq<Step<K, V>>)
    requires Inv(cfg, s) && Work(s.batches) > 0
    ensures var t := RunFrom(cfg, s, steps); Inv(cfg, t) && t.loads == s.loads && Work(t.batches) < Work(s.batches)
    ensures Plain(answers, steps)
  {
    var b := WorkHasBatch(s.batches);
    if s.batches[b].phase.Open? {
      steps := TimerDispatches(cfg, s);
      return;
    }
    if s.batches[b].phase.Queued? && s.permits == 0 {
      SomebodyHolds(HoldsPermit, s.batches);
      b :| 0 <= b < |s.batches| && HoldsPermit(s.batches[b]);
    }
    var step := Move(s.batches[b].phase, b, answers);
    BatchMoves(cfg, s, b, answers);
    NextOk(cfg, s, step);
    steps := [step];
    assert RunFrom(cfg, s, steps) == RunFrom(cfg, Next(cfg, s, step), []);
  }

  lemma {:induction false} AllBatchesFinish<K, V>(cfg: Config, s: State<K, V>, answers: nat -> Option<map<K, V>>)
    returns (steps: seq<Step<K, V>>)
    requires Inv(cfg, s)
    ensures var t := RunFrom(cfg, s, steps); Inv(cfg, t) && t.loads == s.loads && Work(t.batches) == 0
    ensures Plain(answers, steps)
    decreases Work(s.batches)
  {
    if Work(s.batches) == 0 {
      steps := [];
    } else {
      var first := SomethingMoves(cfg, s, answers);
      var rest := AllBatchesFinish(cfg, RunFrom(cfg, s, first), answers);
      RunFromAppend(cfg, s, first, rest);
      steps := first + rest;
    }
  }

  // ---------------------------------------------------------------- the calls return

  /** A pending call has returned; any other is as it was. */
  ghost predicate Settled<K, V>(before: Load<K, V>, after: Load<K, V>) {
    if before.outcome.Pending? then after.outcome.Returned? else after == before
  }

  function AwaitsLeft<K, V>(load: Load<K, V>): nat {
    if load.outcome.Pending? && load.next <= |load.waiters| then |load.waiters| - load.next + 1 else 0
  }

  /** With every batch finished, a pending call passes its next await, or returns. */
  lemma CallAdvances<K, V>(cfg: Config, s: State<K, V>, l: nat)
    requires Inv(cfg, s) && Work(s.batches) == 0 && l < |s.loads| && s.loads[l].outcome.Pending?
    ensures var t := Next(cfg, s, Resume(l));
            && Inv(cfg, t) && t.batches == s.batches && t.loads == s.loads[l := t.loads[l]]
            && !t.loads[l].outcome.Abandoned? && AwaitsLeft(t.loads[l]) < AwaitsLeft(s.loads[l])
  {
    var load := s.loads[l];
    assert LoadOk(s.batches, load);
    if load.next < |load.waiters| {
      NoWorkMeansFinished(s.batches, load.waiters[load.next].batch);
      assert BatchOk(cfg.Capacity(), s.batches[load.waiters[load.next].batch]);
    }
    NextOk(cfg, s, Resume(l));
  }

  lemma {:induction false} CallReturns<K, V>(cfg: Config, s: State<K, V>, l: nat) returns (steps: seq<Step<K, V>>)
    requires Inv(cfg, s) && Work(s.batches) == 0 && l < |s.loads|
    ensures var t := RunFrom(cfg, s, steps);
            && Inv(cfg, t) && t.batches == s.batches && |t.loads| == |s.loads| && Settled(s.loads[l], t.loads[l])
            && forall k :: 0 <= k < |s.loads| && k != l ==> t.loads[k] == s.loads[k]
    ensures forall i :: 0 <= i < |steps| ==> steps[i].Resume?
    decreases AwaitsLeft(s.loads[l]), 1
  {
    steps := [];
    if s.loads[l].outcome.Pending? {
      var rest := AfterOneAwait(cfg, s, l);
      steps := [Resume(l)] + rest;
      assert steps[1..] == rest;
    }
  }

  lemma {:induction false} AfterOneAwait<K, V>(cfg: Config, s: State<K, V>, l: nat) returns (steps: seq<Step<K, V>>)
    requires Inv(cfg, s) && Work(s.batches) == 0 && l < |s.loads| && s.loads[l].outcome.Pending?
    ensures var t := RunFrom(cfg, Next(cfg, s, Resume(l)), steps);
            && Inv(cfg, t) && t.batches == s.batches && |t.loads| == |s.loads| && t.loads[l].outcome.Returned?
            && forall k :: 0 <= k < |s.loads| && k != l ==> t.loads[k] == s.loads[k]
    ensures forall i :: 0 <= i < |steps| ==> steps[i].Resume?
    decreases AwaitsLeft(s.loads[l]), 0
  {
    CallAdvances(cfg, s, l);
    steps := CallReturns(cfg, Next(cfg, s, Resume(l)), l);
  }

  lemma {:induction false} CallsReturn<K, V>(cfg: Config, s: State<K, V>, n: nat) returns (steps: seq<Step<K, V>>)
    requires Inv(cfg, s) && Work(s.batches) == 0 && n <= |s.loads|
    ensures var t := RunFrom(cfg, s, steps);
            && Inv(cfg, t) && t.batches == s.batches && |t.loads| == |s.loads|
            && (forall l :: 0 <= l < n ==> Settled(s.loads[l], t.loads[l]))
            && (forall l :: n <= l < |s.loads| ==> t.loads[l] == s.loads[l])
    ensures forall i :: 0 <= i < |steps| ==> steps[i].Resume?
  {
    steps := [];
    if n > 0 {
      var first := CallsReturn(cfg, s, n - 1);
      var rest := CallReturns(cfg, RunFrom(cfg, s, first), n - 1);
      RunFromAppend(cfg, s, first, rest);
      steps := first + rest;
    }
  }

  /** After any run, and whatever the outstanding fetches answer, there is a continuation in which
      every pending call returns. */
  lemma EveryLoadCanReturn<K, V>(cfg: Config, steps: seq<Step<K, V>>, answers: nat -> Option<map<K, V>>)
    returns (more: seq<Step<K, V>>)
    ensures var s, t := Exec(cfg, steps), Exec(cfg, steps + more);
            |t.loads| == |s.loads| && forall l :: 0 <= l < |s.loads| ==> Settled(s.loads[l], t.loads[l])
    ensures Plain(answers, more)
  {
    ExecOk(cfg, steps);
    var s := Exec(cfg, steps);
    var first := AllBatchesFinish(cfg, s, answers);
    var rest := CallsReturn(cfg, RunFrom(cfg, s, first), |s.loads|);
    RunFromAppend(cfg, s, first, rest);
    more := first + rest;
    RunContinues(cfg, steps, more);
  }
}
