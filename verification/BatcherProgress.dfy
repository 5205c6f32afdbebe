/** No reachable state of the batcher is a dead end. */
module BatcherProgress {
  // Whatever has happened, and whatever replies the executor still has in store, some continuation
  // lets every `execute_many` return.

  import opened Wrappers
  import opened BatchTimer
  import opened Semaphore
  import opened Batcher

  ghost function RunFrom<Q, R>(cfg: Config, s: State<Q, R>, steps: seq<Step<Q, R>>): State<Q, R>
    decreases |steps|
  {
    if steps == [] then s else RunFrom(cfg, Next(cfg, s, steps[0]), steps[1..])
  }

  lemma {:induction false} RunFromAppend<Q, R>(cfg: Config, s: State<Q, R>, a: seq<Step<Q, R>>, b: seq<Step<Q, R>>)
    ensures RunFrom(cfg, s, a + b) == RunFrom(cfg, RunFrom(cfg, s, a), b)
    decreases |a|
  {
    if a == [] {
      assert a + b == b;
    } else {
      assert (a + b)[1..] == a[1..] + b;
      RunFromAppend(cfg, Next(cfg, s, a[0]), a[1..], b);
    }
  }

  lemma {:induction false} RunContinues<Q, R>(cfg: Config, steps: seq<Step<Q, R>>, more: seq<Step<Q, R>>)
    ensures Exec(cfg, steps + more) == RunFrom(cfg, Exec(cfg, steps), more)
    decreases |more|
  {
    if more == [] {
      assert steps + more == steps;
    } else {
      var first := steps + [more[0]];
      assert first[..|steps|] == steps;
      assert steps + more == first + more[1..];
      RunContinues(cfg, first, more[1..]);
    }
  }

  lemma OneStep<Q, R>(cfg: Config, s: State<Q, R>, step: Step<Q, R>)
    ensures RunFrom(cfg, s, [step]) == Next(cfg, s, step)
  {
    assert RunFrom(cfg, s, [step]) == RunFrom(cfg, Next(cfg, s, step), []);
  }

  // ---------------------------------------------------------------- every batch is executed

  function Rank(phase: Phase): nat {
    match phase
    case Open => 3
    case Queued => 2
    case Running => 1
    case Returned => 0
  }

  function Work<Q>(batches: seq<Batch<Q>>): nat {
    if batches == [] then 0 else Work(batches[..|batches| - 1]) + Rank(batches[|batches| - 1].phase)
  }

  lemma {:induction false} WorkUpdate<Q>(batches: seq<Batch<Q>>, b: nat, x: Batch<Q>)
    requires b < |batches|
    ensures Work(batches[b := x]) == Work(batches) - Rank(batches[b].phase) + Rank(x.phase)
  {
    var n := |batches| - 1;
    if b == n {
      assert batches[b := x][..n] == batches[..n];
    } else {
      assert batches[b := x][..n] == batches[..n][b := x];
      WorkUpdate(batches[..n], b, x);
    }
  }

  lemma {:induction false} NoWorkMeansReturned<Q>(batches: seq<Batch<Q>>, b: nat)
    requires Work(batches) == 0 && b < |batches|
    ensures batches[b].phase.Returned?
  {
    if b < |batches| - 1 {
      NoWorkMeansReturned(batches[..|batches| - 1], b);
    }
  }

  lemma {:induction false} WorkHasBatch<Q>(batches: seq<Batch<Q>>) returns (b: nat)
    requires Work(batches) > 0
    ensures b < |batches| && !batches[b].phase.Returned?
  {
    b := |batches| - 1;
    if batches[b].phase.Returned? {
      b := WorkHasBatch(batches[..b]);
    }
  }

  /** What moving batches on leaves alone. */
  ghost predicate SameCalls<Q, R>(s: State<Q, R>, t: State<Q, R>) {
    t.calls == s.calls && t.channels == s.channels
  }

  lemma BatchMoves<Q, R>(cfg: Config, submitted: seq<Q>, s: State<Q, R>, b: nat) returns (step: Step<Q, R>)
    requires Inv(cfg, submitted, s) && b < |s.batches|
    requires (s.batches[b].phase.Queued? && s.permits > 0) || s.batches[b].phase.Running?
    ensures var t := Next(cfg, s, step);
            Inv(cfg, submitted, t) && SameCalls(s, t) && Work(t.batches) < Work(s.batches)
  {
    step := if s.batches[b].phase.Queued? then Grant(b) else Return(b);
    NextOk(cfg, submitted, s, step);
    WorkUpdate(s.batches, b, Next(cfg, s, step).batches[b]);
  }

  /** What a turn of the timer does to the open batch of `s`. */
  ghost predicate Turned<Q, R>(cfg: Config, s: State<Q, R>, t: State<Q, R>)
    requires s.current.Some? && s.current.value < |s.batches|
  {
    var due := s.batches[s.current.value].createdAt + cfg.delay;
    && (if t.current.Some? then t.batches == s.batches && t.current == s.current && t.timer.wakeAt == due
        else Work(t.batches) < Work(s.batches))
    && (s.timer.wakeAt == due ==> t.current.None?)
  }

  lemma TimerWakes<Q, R>(cfg: Config, submitted: seq<Q>, s: State<Q, R>)
    requires Inv(cfg, submitted, s) && s.current.Some? && s.timer.wakeAt <= s.timer.now
    ensures var t := Next(cfg, s, TimerWake); Inv(cfg, submitted, t) && SameCalls(s, t) && Turned(cfg, s, t)
  {
    NextOk(cfg, submitted, s, TimerWake);
    WakeOnTime(s.timer, cfg.delay, cfg.slack, OpenSince(s.batches, s.current));
    var b := s.current.value;
    WorkUpdate(s.batches, b, s.batches[b].(phase := Queued));
  }

  /** Time passes up to the pending wake-up, and the timer wakes. */
  lemma TimerTurn<Q, R>(cfg: Config, submitted: seq<Q>, s: State<Q, R>) returns (steps: seq<Step<Q, R>>)
    requires Inv(cfg, submitted, s) && s.current.Some?
    ensures var t := RunFrom(cfg, s, steps); Inv(cfg, submitted, t) && SameCalls(s, t) && Turned(cfg, s, t)
  {
    var to := if s.timer.now < s.timer.wakeAt then s.timer.wakeAt else s.timer.now;
    steps := [Pass(to), TimerWake];
    var u := s.(timer := s.timer.(now := to));
    assert Next(cfg, s, Pass(to)) == u && Inv(cfg, submitted, u) by {
      NextOk(cfg, submitted, s, Pass(to));
    }
    TimerWakes(cfg, submitted, u);
    assert RunFrom(cfg, s, steps) == RunFrom(cfg, u, steps[1..]);
    assert RunFrom(cfg, u, steps[1..]) == RunFrom(cfg, Next(cfg, u, TimerWake), steps[1..][1..]);
  }

  /** As long as a batch has not been executed there is a way to do some of the work. */
  lemma SomethingMoves<Q, R>(cfg: Config, submitted: seq<Q>, s: State<Q, R>) returns (steps: seq<Step<Q, R>>)
    requires Inv(cfg, submitted, s) && Work(s.batches) > 0
    ensures var t := RunFrom(cfg, s, steps);
            Inv(cfg, submitted, t) && SameCalls(s, t) && Work(t.batches) < Work(s.batches)
  {
    var b := WorkHasBatch(s.batches);
    if s.batches[b].phase.Open? {
      steps := TimerTurn(cfg, submitted, s);
      var t := RunFrom(cfg, s, steps);
      if t.current.Some? {
        var again := TimerTurn(cfg, submitted, t);
        RunFromAppend(cfg, s, steps, again);
        steps := steps + again;
      }
      return;
    }
    if s.batches[b].phase.Queued? && s.permits == 0 {
      SomebodyHolds(HoldsPermit, s.batches);
      b :| 0 <= b < |s.batches| && HoldsPermit(s.batches[b]);
    }
    var step := BatchMoves(cfg, submitted, s, b);
    OneStep(cfg, s, step);
    steps := [step];
  }

  lemma {:induction false} AllBatchesReturn<Q, R>(cfg: Config, submitted: seq<Q>, s: State<Q, R>) returns (steps: seq<Step<Q, R>>)
    requires Inv(cfg, submitted, s)
    ensures var t := RunFrom(cfg, s, steps); Inv(cfg, submitted, t) && SameCalls(s, t) && Work(t.batches) == 0
    decreases Work(s.batches)
  {
    if Work(s.batches) == 0 {
      steps := [];
    } else {
      var first := SomethingMoves(cfg, submitted, s);
      var rest := AllBatchesReturn(cfg, submitted, RunFrom(cfg, s, first));
      RunFromAppend(cfg, s, first, rest);
      steps := first + rest;
    }
  }

  // ---------------------------------------------------------------- every channel is answered

  /** The executor sends the reply in store, or drops the sender if there is none. */
  function Answer<R>(reply: Option<R>): Channel<R> {
    if reply.Some? then Sent(reply.value) else Dropped
  }

  lemma SenderOf<Q, R>(cfg: Config, submitted: seq<Q>, s: State<Q, R>, k: nat) returns (b: nat, i: nat)
    requires Inv(cfg, submitted, s) && Work(s.batches) == 0 && k < |s.channels|
    ensures HasSlot(s, b, i) && s.batches[b].items[i].channel == k && s.batches[b].Started()
  {
    b, i := Locate(s.batches, k);
    SlotAt(s.batches, b, i);
    NoWorkMeansReturned(s.batches, b);
  }

  lemma ChannelAnswered<Q, R>(cfg: Config, submitted: seq<Q>, s: State<Q, R>, k: nat, reply: Option<R>) returns (step: Step<Q, R>)
    requires Inv(cfg, submitted, s) && Work(s.batches) == 0 && k < |s.channels| && s.channels[k].Waiting?
    ensures Next(cfg, s, step) == s.(channels := s.channels[k := Answer(reply)])
    ensures Inv(cfg, submitted, s.(channels := s.channels[k := Answer(reply)]))
  {
    var b, i := SenderOf(cfg, submitted, s, k);
    step := if reply.Some? then Reply(b, i, reply.value) else DropSender(b, i);
    AnswerOk(cfg, submitted, s, b, i, Answer(reply));
  }

  /** Channels below `n` hold the answers in store unless they had been answered before. */
  ghost predicate AnsweredUpTo<R>(before: seq<Channel<R>>, replies: nat -> Option<R>, n: nat, after: seq<Channel<R>>) {
    && n <= |before| == |after|
    && (forall k :: 0 <= k < n ==> after[k] == if before[k].Waiting? then Answer(replies(k)) else before[k])
    && (forall k :: n <= k < |after| ==> after[k] == before[k])
  }

  lemma {:induction false} AllAnswered<Q, R>(cfg: Config, submitted: seq<Q>, s: State<Q, R>, replies: nat -> Option<R>, n: nat)
    returns (steps: seq<Step<Q, R>>)
    requires Inv(cfg, submitted, s) && Work(s.batches) == 0 && n <= |s.channels|
    ensures var t := RunFrom(cfg, s, steps);
            && Inv(cfg, submitted, t) && t.batches == s.batches && t.calls == s.calls
            && AnsweredUpTo(s.channels, replies, n, t.channels)
  {
    steps := [];
    if n > 0 {
      steps := AllAnswered(cfg, submitted, s, replies, n - 1);
      var t := RunFrom(cfg, s, steps);
      if t.channels[n - 1].Waiting? {
        var step := ChannelAnswered(cfg, submitted, t, n - 1, replies(n - 1));
        OneStep(cfg, t, step);
        RunFromAppend(cfg, s, steps, [step]);
        steps := steps + [step];
      }
    }
  }

  // ---------------------------------------------------------------- every call returns

  ghost predicate AllAnsweredIn<Q, R>(s: State<Q, R>) {
    forall k :: 0 <= k < |s.channels| ==> !s.channels[k].Waiting?
  }

  /** `execute_many` holds an entry for every item. */
  predicate Complete<Q, R>(call: Call<Q, R>) {
    |call.results| == |call.input|
  }

  lemma CallAdvances<Q, R>(cfg: Config, submitted: seq<Q>, s: State<Q, R>, c: nat)
    requires Inv(cfg, submitted, s) && AllAnsweredIn(s) && c < |s.calls| && !Complete(s.calls[c])
    ensures var t := Next(cfg, s, Receive(c));
            && Inv(cfg, submitted, t) && |t.calls| == |s.calls| && t == s.(calls := s.calls[c := t.calls[c]])
            && t.calls[c].input == s.calls[c].input && |t.calls[c].results| == |s.calls[c].results| + 1
            && |s.calls[c].results| < |s.calls[c].input|
  {
    assert CallOk(submitted, s.channels, s.calls[c]);
    NextOk(cfg, submitted, s, Receive(c));
  }

  lemma {:induction false} CallReturns<Q, R>(cfg: Config, submitted: seq<Q>, s: State<Q, R>, c: nat) returns (steps: seq<Step<Q, R>>)
    requires Inv(cfg, submitted, s) && AllAnsweredIn(s) && c < |s.calls|
    ensures var t := RunFrom(cfg, s, steps);
            && Inv(cfg, submitted, t) && |t.calls| == |s.calls| && t == s.(calls := s.calls[c := t.calls[c]])
            && t.calls[c].input == s.calls[c].input && Complete(t.calls[c])
    decreases |s.calls[c].input| - |s.calls[c].results|
  {
    steps := [];
    if !Complete(s.calls[c]) {
      CallAdvances(cfg, submitted, s, c);
      var rest := CallReturns(cfg, submitted, Next(cfg, s, Receive(c)), c);
      steps := [Receive(c)] + rest;
      assert steps[1..] == rest;
    }
  }

  lemma {:induction false} CallsReturn<Q, R>(cfg: Config, submitted: seq<Q>, s: State<Q, R>, n: nat) returns (steps: seq<Step<Q, R>>)
    requires Inv(cfg, submitted, s) && AllAnsweredIn(s) && n <= |s.calls|
    ensures var t := RunFrom(cfg, s, steps);
            && Inv(cfg, submitted, t) && t == s.(calls := t.calls) && |t.calls| == |s.calls|
            && (forall c :: 0 <= c < |s.calls| ==> t.calls[c].input == s.calls[c].input)
            && (forall c :: 0 <= c < n ==> Complete(t.calls[c]))
  {
    steps := [];
    if n > 0 {
      var first := CallsReturn(cfg, submitted, s, n - 1);
      var rest := CallReturns(cfg, submitted, RunFrom(cfg, s, first), n - 1);
      RunFromAppend(cfg, s, first, rest);
      steps := first + rest;
    }
  }

  /** After any run there is a continuation in which every call returns, and every channel that was
      still waiting carries exactly the answer that the executor had in store for it. */
  lemma EveryCallCanReturn<Q, R>(cfg: Config, steps: seq<Step<Q, R>>, replies: nat -> Option<R>) returns (more: seq<Step<Q, R>>)
    ensures var s, t := Exec(cfg, steps), Exec(cfg, steps + more);
            && |t.calls| == |s.calls| && AnsweredUpTo(s.channels, replies, |s.channels|, t.channels)
            && forall c :: 0 <= c < |s.calls| ==> t.calls[c].input == s.calls[c].input && Complete(t.calls[c])
  {
    ExecOk(cfg, steps);
    var s, submitted := Exec(cfg, steps), Submitted(steps);
    var first := AllBatchesReturn(cfg, submitted, s);
    var s1 := RunFrom(cfg, s, first);
    var second := AllAnswered(cfg, submitted, s1, replies, |s1.channels|);
    var s2 := RunFrom(cfg, s1, second);
    var third := CallsReturn(cfg, submitted, s2, |s2.calls|);
    RunFromAppend(cfg, s, first, second);
    RunFromAppend(cfg, s, first + second, third);
    more := first + second + third;
    RunContinues(cfg, steps, more);
  }
}
