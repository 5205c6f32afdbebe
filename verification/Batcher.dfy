/** `Batcher` (crates/batching/src/batch.rs) as a state machine. */
module Batcher {
  // As in `DataLoader`, the critical section of `execute_many` is one step, every await point
  // separates two steps, and a run is any sequence of step requests.

  import opened Wrappers
  import opened BatchTimer
  import opened Semaphore

  // ---------------------------------------------------------------- data model

  /** `Returned`: `executor.execute` has returned (or unwound) and the ticket is dropped.  The
      executor may have moved reply senders elsewhere, so replies may still follow. */
  datatype Phase = Open | Queued | Running | Returned

  /** A request with the sending half of its oneshot channel, named by the channel's number. */
  datatype Slot<Q> = Slot(request: Q, channel: nat)

  datatype Batch<Q> = Batch(items: seq<Slot<Q>>, createdAt: nat, phase: Phase) {
    predicate Started() {
      phase.Running? || phase.Returned?
    }
  }

  /** A oneshot channel seen from its receiver. */
  datatype Channel<R> = Waiting | Sent(reply: R) | Dropped {
    /** `response.await.ok()` */
    function Received(): Option<R>
      requires !Waiting?
    {
      if Sent? then Some(reply) else None
    }
  }

  /** One call of `execute_many`: its receivers are the channels from `base` on. */
  datatype Call<Q, R> = Call(input: seq<Q>, base: nat, results: seq<Option<R>>)

  datatype State<Q, R> = State(
    batches: seq<Batch<Q>>, current: Option<nat>, channels: seq<Channel<R>>,
    permits: nat, calls: seq<Call<Q, R>>, timer: Timer)

  function Init<Q, R>(cfg: Config): State<Q, R> {
    State([], None, [], cfg.Permits(), [], Started(cfg.delay))
  }

  // ---------------------------------------------------------------- submit, under the lock

  datatype Submission<Q> = Submission(batches: seq<Batch<Q>>, current: Option<nat>, channels: nat)
  {
    ghost predicate WellFormed() {
      current.Some? ==> current.value < |batches|
    }
  }

  function NewBatch<Q>(now: nat): Batch<Q> {
    Batch([], now, Open)
  }

  function Grow<Q>(capacity: nat, batch: Batch<Q>, slot: Slot<Q>): Batch<Q> {
    batch.(items := batch.items + [slot],
           phase := if |batch.items| + 1 >= capacity then Queued else batch.phase)
  }

  /** One iteration of the `for item in items` loop of `execute_many`. */
  function SubmitOne<Q>(capacity: nat, now: nat, u: Submission<Q>, item: Q): (r: Submission<Q>)
    requires u.WellFormed()
    ensures r.WellFormed()
  {
    var opens := u.current.None?;
    var b := if opens then |u.batches| else u.current.value;
    var grown := Grow(capacity, if opens then NewBatch(now) else u.batches[b], Slot(item, u.channels));
    Submission(
      if opens then u.batches + [grown] else u.batches[b := grown],
      if |grown.items| >= capacity then None else Some(b),
      u.channels + 1)
  }

  function SubmitAll<Q>(capacity: nat, now: nat, u: Submission<Q>, items: seq<Q>): (r: Submission<Q>)
    requires u.WellFormed()
    ensures r.WellFormed()
  {
    if items == [] then u
    else SubmitOne(capacity, now, SubmitAll(capacity, now, u, items[..|items| - 1]), items[|items| - 1])
  }

  /** The shared state that the mutex guards, updated in place. */
  class Shared<Q> {
    const capacity: nat
    var batches: seq<Batch<Q>>
    var currentBatch: Option<nat>
    var channels: nat

    ghost predicate Valid()
      reads this
    {
      currentBatch.Some? ==> currentBatch.value < |batches|
    }

    constructor (batchSize: nat)
      ensures Valid() && batches == [] && currentBatch == None && channels == 0
      ensures capacity == if batchSize < 1 then 1 else batchSize
    {
      capacity := if batchSize < 1 then 1 else batchSize;
      batches, currentBatch, channels := [], None, 0;
    }

    /** The body of the `for item in items` loop of `execute_many`. */
    method SubmitItem(item: Q, now: nat) returns (response: nat)
      requires Valid()
      modifies this
      ensures Submission(batches, currentBatch, channels)
           == SubmitOne(capacity, now, Submission(old(batches), old(currentBatch), old(channels)), item)
      ensures response == old(channels)
    {
      if currentBatch.None? {
        batches, currentBatch := batches + [NewBatch(now)], Some(|batches|);
      }
      var b := currentBatch.value;
      batches := batches[b := batches[b].(items := batches[b].items + [Slot(item, channels)])];
      response, channels := channels, channels + 1;
      if |batches[b].items| >= capacity {
        batches, currentBatch := batches[b := batches[b].(phase := Queued)], None;
      }
    }

    /** The critical section of `execute_many`; `responses` are the receivers it keeps. */
    method Submit(items: seq<Q>, now: nat) returns (responses: seq<nat>)
      requires Valid()
      modifies this
      ensures Valid()
      ensures Submission(batches, currentBatch, channels)
           == SubmitAll(capacity, now, Submission(old(batches), old(currentBatch), old(channels)), items)
      ensures |responses| == |items|
      ensures forall i :: 0 <= i < |responses| ==> responses[i] == old(channels) + i
    {
      ghost var start := Submission(batches, currentBatch, channels);
      responses := [];
      for i := 0 to |items|
        invariant Submission(batches, currentBatch, channels) == SubmitAll(capacity, now, start, items[..i])
        invariant |responses| == i && channels == start.channels + i
        invariant forall j :: 0 <= j < i ==> responses[j] == start.channels + j
      {
        assert items[..i + 1][..i] == items[..i];
        var response := SubmitItem(items[i], now);
        responses := responses + [response];
      }
      assert items[..|items|] == items;
    }

    /** The body of `batch_loop` after it has woken and locked: returns the next sleep. */
    method TimerBody(delay: nat, now: nat) returns (delayDelta: nat)
      requires Valid()
      modifies this
      ensures Valid() && channels == old(channels)
      ensures var (sleep, taken) := Decide(delay, now, OpenSince(old(batches), old(currentBatch)));
              && delayDelta == sleep
              && currentBatch == (if taken then None else old(currentBatch))
              && batches == if taken then WithPhase(old(batches), old(currentBatch).value, Queued) else old(batches)
    {
      delayDelta := delay;
      if currentBatch.Some? {
        var b := currentBatch.value;
        var remaining := SaturatingSub(delay, SaturatingSub(now, batches[b].createdAt));
        if remaining == 0 {
          batches, currentBatch := batches[b := batches[b].(phase := Queued)], None;
        } else {
          delayDelta := remaining;
        }
      }
    }
  }

  // ---------------------------------------------------------------- steps

  datatype Step<Q, R> =
    | Submit(items: seq<Q>)                          // `execute_many` up to the end of its critical section
    | Pass(to: nat)                                  // time passes
    | TimerWake                                      // `batch_loop` wakes and holds the lock
    | Grant(batch: nat)                              // the semaphore hands out a permit; `execute` starts
    | Reply(batch: nat, index: nat, reply: R)        // the executor calls `BatchResponse::send`
    | DropSender(batch: nat, index: nat)             // the executor drops a `BatchResponse` unsent
    | Return(batch: nat)                             // `execute` ends and the ticket is dropped
    | Receive(call: nat)                             // `execute_many` passes its current await

  predicate HasSlot<Q, R>(s: State<Q, R>, b: nat, i: nat) {
    b < |s.batches| && i < |s.batches[b].items| && s.batches[b].items[i].channel < |s.channels|
  }

  ghost predicate Enabled<Q, R>(cfg: Config, s: State<Q, R>, step: Step<Q, R>) {
    match step
    case Submit(_) => s.current.Some? ==> s.current.value < |s.batches|
    case Pass(to) => MayPass(s.timer, cfg.slack, to)
    case TimerWake => s.timer.wakeAt <= s.timer.now && (s.current.Some? ==> s.current.value < |s.batches|)
    case Grant(b) => b < |s.batches| && s.batches[b].phase.Queued? && s.permits > 0
    case Reply(b, i, _) => HasSlot(s, b, i) && s.batches[b].Started() && s.channels[s.batches[b].items[i].channel].Waiting?
    case DropSender(b, i) => HasSlot(s, b, i) && s.batches[b].Started() && s.channels[s.batches[b].items[i].channel].Waiting?
    case Return(b) => b < |s.batches| && s.batches[b].phase.Running?
    case Receive(c) =>
      c < |s.calls| && |s.calls[c].results| < |s.calls[c].input|
      && var chan := s.calls[c].base + |s.calls[c].results|;
         chan < |s.channels| && !s.channels[chan].Waiting?
  }

  function OpenSince<Q>(batches: seq<Batch<Q>>, current: Option<nat>): Option<nat>
    requires current.Some? ==> current.value < |batches|
  {
    if current.None? then None else Some(batches[current.value].createdAt)
  }

  function WithPhase<Q>(batches: seq<Batch<Q>>, b: nat, phase: Phase): seq<Batch<Q>>
    requires b < |batches|
  {
    batches[b := batches[b].(phase := phase)]
  }

  ghost function Next<Q, R>(cfg: Config, s: State<Q, R>, step: Step<Q, R>): State<Q, R> {
    if !Enabled(cfg, s, step) then s
    else match step
      case Submit(items) =>
        var u := SubmitAll(cfg.Capacity(), s.timer.now, Submission(s.batches, s.current, |s.channels|), items);
        s.(batches := u.batches, current := u.current,
           channels := s.channels + seq(|items|, _ => Waiting),
           calls := s.calls + [Call(items, |s.channels|, [])])
      case Pass(to) => s.(timer := s.timer.(now := to))
      case TimerWake =>
        var since := OpenSince(s.batches, s.current);
        var t := s.(timer := Wake(s.timer, cfg.delay, since));
        if Decide(cfg.delay, s.timer.now, since).1
        then t.(batches := WithPhase(s.batches, s.current.value, Queued), current := None)
        else t
      case Grant(b) => s.(batches := WithPhase(s.batches, b, Running), permits := s.permits - 1)
      case Reply(b, i, reply) => s.(channels := s.channels[s.batches[b].items[i].channel := Sent(reply)])
      case DropSender(b, i) => s.(channels := s.channels[s.batches[b].items[i].channel := Dropped])
      case Return(b) => s.(batches := WithPhase(s.batches, b, Returned), permits := s.permits + 1)
      case Receive(c) =>
        var call := s.calls[c];
        var got := s.channels[call.base + |call.results|].Received();
        s.(calls := s.calls[c := call.(results := call.results + [got])])
  }

  ghost function Exec<Q, R>(cfg: Config, steps: seq<Step<Q, R>>): State<Q, R> {
    if steps == [] then Init(cfg)
    else Next(cfg, Exec(cfg, steps[..|steps| - 1]), steps[|steps| - 1])
  }

  // ---------------------------------------------------------------- invariant

  /** The slots of all batches, in the order the batches were opened. */
  function Slots<Q>(batches: seq<Batch<Q>>): seq<Slot<Q>> {
    if batches == [] then [] else Slots(batches[..|batches| - 1]) + batches[|batches| - 1].items
  }

  /** The requests of all `execute_many` calls of a run, in the order they took the lock. */
  function Submitted<Q, R>(steps: seq<Step<Q, R>>): seq<Q> {
    if steps == [] then []
    else
      var rest := Submitted(steps[..|steps| - 1]);
      var last := steps[|steps| - 1];
      if last.Submit? then rest + last.items else rest
  }

  function HoldsPermit<Q>(batch: Batch<Q>): bool {
    batch.phase.Running?
  }

  ghost predicate BatchesOk<Q>(capacity: nat, batches: seq<Batch<Q>>, current: Option<nat>) {
    && (current.Some? ==> |batches| > 0 && current.value == |batches| - 1)
    && forall b :: 0 <= b < |batches| ==>
         && 1 <= |batches[b].items| <= capacity
         && (batches[b].phase.Open? ==> |batches[b].items| < capacity)
         && (batches[b].phase.Open? <==> current == Some(b))
  }

  /** Conservation: laid end to end, the batches hold the submitted requests in order, and the
      k-th of them carries channel k. */
  ghost predicate Conserved<Q>(slots: seq<Slot<Q>>, submitted: seq<Q>) {
    && |slots| == |submitted|
    && forall k :: 0 <= k < |slots| ==> slots[k] == Slot(submitted[k], k)
  }

  /** What a receiver has read from its channel: the reply, or None for a sender dropped unsent. */
  ghost predicate Got<R>(channel: Channel<R>, result: Option<R>) {
    match channel
    case Waiting => false
    case Sent(reply) => result == Some(reply)
    case Dropped => result == None
  }

  ghost predicate CallOk<Q, R>(submitted: seq<Q>, channels: seq<Channel<R>>, call: Call<Q, R>) {
    && call.base + |call.input| <= |submitted| == |channels|
    && call.input == submitted[call.base..call.base + |call.input|]
    && |call.results| <= |call.input|
    && forall i :: 0 <= i < |call.results| ==> Got(channels[call.base + i], call.results[i])
  }

  /** No channel is answered before the batch that carries it has started. */
  ghost predicate Unanswered<Q, R>(batches: seq<Batch<Q>>, channels: seq<Channel<R>>) {
    forall b, i :: 0 <= b < |batches| && 0 <= i < |batches[b].items| && !batches[b].Started() ==>
      var c := batches[b].items[i].channel;
      c < |channels| ==> channels[c].Waiting?
  }

  ghost predicate Inv<Q, R>(cfg: Config, submitted: seq<Q>, s: State<Q, R>) {
    && BatchesOk(cfg.Capacity(), s.batches, s.current)
    && Conserved(Slots(s.batches), submitted)
    && |s.channels| == |submitted|
    && Unanswered(s.batches, s.channels)
    && s.permits + Holders(HoldsPermit, s.batches) == cfg.Permits()
    && (forall c :: 0 <= c < |s.calls| ==> CallOk(submitted, s.channels, s.calls[c]))
    && OnTime(s.timer, cfg.delay, cfg.slack, OpenSince(s.batches, s.current))
  }

  // ---------------------------------------------------------------- where a slot is

  function Offset<Q>(batches: seq<Batch<Q>>, b: nat): nat
    requires b <= |batches|
  {
    |Slots(batches[..b])|
  }

  lemma {:induction false} SlotAt<Q>(batches: seq<Batch<Q>>, b: nat, i: nat)
    requires b < |batches| && i < |batches[b].items|
    ensures Offset(batches, b) + i < |Slots(batches)|
    ensures Slots(batches)[Offset(batches, b) + i] == batches[b].items[i]
  {
    var n := |batches| - 1;
    if b < n {
      SlotAt(batches[..n], b, i);
      assert batches[..n][..b] == batches[..b];
    }
  }

  lemma {:induction false} Locate<Q>(batches: seq<Batch<Q>>, k: nat) returns (b: nat, i: nat)
    requires k < |Slots(batches)|
    ensures b < |batches| && i < |batches[b].items| && Offset(batches, b) + i == k
  {
    var n := |batches| - 1;
    var before := |Slots(batches[..n])|;
    if k < before {
      b, i := Locate(batches[..n], k);
      assert batches[..n][..b] == batches[..b];
    } else {
      b, i := n, k - before;
    }
  }

  lemma {:induction false} OffsetsIncrease<Q>(batches: seq<Batch<Q>>, a: nat, b: nat)
    requires a < b <= |batches|
    ensures Offset(batches, a) + |batches[a].items| <= Offset(batches, b)
  {
    assert batches[..b][..b - 1] == batches[..b - 1];
    if a < b - 1 {
      OffsetsIncrease(batches, a, b - 1);
    }
  }

  lemma {:induction false} SlotsUpdate<Q>(batches: seq<Batch<Q>>, b: nat, x: Batch<Q>)
    requires b < |batches| && x.items == batches[b].items
    ensures Slots(batches[b := x]) == Slots(batches)
  {
    var n := |batches| - 1;
    if b < n {
      assert batches[b := x][..n] == batches[..n][b := x];
      SlotsUpdate(batches[..n], b, x);
    } else {
      assert batches[b := x][..n] == batches[..n];
    }
  }

  // ---------------------------------------------------------------- preservation

  /** What the submit loop keeps once `total` requests have been submitted in all. */
  ghost predicate SubmitOk<Q, R>(cfg: Config, total: seq<Q>, s: State<Q, R>, u: Submission<Q>)
    requires u.WellFormed()
  {
    && BatchesOk(cfg.Capacity(), u.batches, u.current)
    && Conserved(Slots(u.batches), total)
    && |s.channels| <= u.channels == |total|
    && Holders(HoldsPermit, u.batches) == Holders(HoldsPermit, s.batches)
    && Unanswered(u.batches, s.channels)
    && OnTime(s.timer, cfg.delay, cfg.slack, OpenSince(u.batches, u.current))
  }

  /** The last batch is appended or, being open, replaced, and gains one slot. */
  ghost predicate Placed<Q>(capacity: nat, batches: seq<Batch<Q>>, current: Option<nat>,
                            after: seq<Batch<Q>>, before: Batch<Q>, slot: Slot<Q>) {
    && before.phase.Open? && |before.items| < capacity
    && var grown := Grow(capacity, before, slot);
       if current.None? then before.items == [] && after == batches + [grown]
       else |batches| > 0 && current.value == |batches| - 1 && batches[current.value] == before
            && after == batches[current.value := grown]
  }

  lemma PlacedOk<Q>(capacity: nat, batches: seq<Batch<Q>>, current: Option<nat>,
                    after: seq<Batch<Q>>, before: Batch<Q>, slot: Slot<Q>)
    requires BatchesOk(capacity, batches, current) && Placed(capacity, batches, current, after, before, slot)
    ensures BatchesOk(capacity, after, if |before.items| + 1 >= capacity then None else Some(|after| - 1))
    ensures Holders(HoldsPermit, after) == Holders(HoldsPermit, batches)
  {
    if current.None? {
      HoldersAppend(HoldsPermit, batches, Grow(capacity, before, slot));
    } else {
      HoldersUpdate(HoldsPermit, batches, current.value, Grow(capacity, before, slot));
    }
  }

  lemma PlacedSlots<Q>(capacity: nat, batches: seq<Batch<Q>>, current: Option<nat>,
                       after: seq<Batch<Q>>, before: Batch<Q>, slot: Slot<Q>)
    requires Placed(capacity, batches, current, after, before, slot)
    ensures Slots(after) == Slots(batches) + [slot]
  {
    var n := |after| - 1;
    assert after[..n] == batches[..n];
    assert current.None? ==> batches[..n] == batches;
  }

  lemma PlacedUnanswered<Q, R>(capacity: nat, batches: seq<Batch<Q>>, current: Option<nat>, after: seq<Batch<Q>>,
                               before: Batch<Q>, slot: Slot<Q>, channels: seq<Channel<R>>)
    requires Placed(capacity, batches, current, after, before, slot)
    requires Unanswered(batches, channels) && slot.channel >= |channels|
    ensures Unanswered(after, channels)
  {
  }

  lemma ConservedAppend<Q>(slots: seq<Slot<Q>>, submitted: seq<Q>, item: Q)
    requires Conserved(slots, submitted)
    ensures Conserved(slots + [Slot(item, |slots|)], submitted + [item])
  {
  }

  lemma SubmitOneOk<Q, R>(cfg: Config, total: seq<Q>, s: State<Q, R>, u: Submission<Q>, item: Q)
    requires u.WellFormed() && SubmitOk(cfg, total, s, u)
    ensures SubmitOk(cfg, total + [item], s, SubmitOne(cfg.Capacity(), s.timer.now, u, item))
  {
    var r := SubmitOne(cfg.Capacity(), s.timer.now, u, item);
    var before := if u.current.None? then NewBatch(s.timer.now) else u.batches[u.current.value];
    var slot := Slot(item, u.channels);
    PlacedOk(cfg.Capacity(), u.batches, u.current, r.batches, before, slot);
    PlacedSlots(cfg.Capacity(), u.batches, u.current, r.batches, before, slot);
    PlacedUnanswered(cfg.Capacity(), u.batches, u.current, r.batches, before, slot, s.channels);
    ConservedAppend(Slots(u.batches), total, item);
  }

  lemma {:induction false} SubmitAllOk<Q, R>(
    cfg: Config, submitted: seq<Q>, s: State<Q, R>, u: Submission<Q>, items: seq<Q>)
    requires u.WellFormed() && SubmitOk(cfg, submitted, s, u)
    ensures SubmitOk(cfg, submitted + items, s, SubmitAll(cfg.Capacity(), s.timer.now, u, items))
  {
    if items == [] {
      assert submitted + items == submitted;
    } else {
      var n := |items| - 1;
      var total, v := submitted + items[..n], SubmitAll(cfg.Capacity(), s.timer.now, u, items[..n]);
      assert total + [items[n]] == submitted + items;
      assert SubmitOk(cfg, total + [items[n]], s, SubmitOne(cfg.Capacity(), s.timer.now, v, items[n])) by {
        SubmitAllOk(cfg, submitted, s, u, items[..n]);
        SubmitOneOk(cfg, total, s, v, items[n]);
      }
    }
  }

  lemma SubmitStepOk<Q, R>(cfg: Config, submitted: seq<Q>, s: State<Q, R>, items: seq<Q>)
    requires Inv(cfg, submitted, s)
    ensures Inv(cfg, submitted + items, Next(cfg, s, Submit(items)))
  {
    var t := Next(cfg, s, Submit(items));
    SubmitAllOk(cfg, submitted, s, Submission(s.batches, s.current, |s.channels|), items);
    forall c | 0 <= c < |t.calls| ensures CallOk(submitted + items, t.channels, t.calls[c]) {
      if c < |s.calls| {
        var call := s.calls[c];
        assert (submitted + items)[call.base..call.base + |call.input|] == submitted[call.base..call.base + |call.input|];
        assert forall k :: 0 <= k < |s.channels| ==> t.channels[k] == s.channels[k];
      }
    }
  }

  lemma PhaseStepOk<Q, R>(cfg: Config, submitted: seq<Q>, s: State<Q, R>, t: State<Q, R>, b: nat, phase: Phase)
    requires Inv(cfg, submitted, s) && b < |s.batches|
    requires t == s.(batches := WithPhase(s.batches, b, phase), permits := t.permits)
    requires !s.batches[b].phase.Open? && (phase.Running? || phase.Returned?)
    requires t.permits + (if phase.Running? then 1 else 0) == s.permits + (if s.batches[b].phase.Running? then 1 else 0)
    ensures Inv(cfg, submitted, t)
  {
    HoldersUpdate(HoldsPermit, s.batches, b, t.batches[b]);
    SlotsUpdate(s.batches, b, t.batches[b]);
  }

  lemma TimerWakeOk<Q, R>(cfg: Config, submitted: seq<Q>, s: State<Q, R>)
    requires Inv(cfg, submitted, s) && s.timer.wakeAt <= s.timer.now
    ensures Inv(cfg, submitted, Next(cfg, s, TimerWake))
  {
    var t := Next(cfg, s, TimerWake);
    WakeOnTime(s.timer, cfg.delay, cfg.slack, OpenSince(s.batches, s.current));
    if t.batches != s.batches {
      var b := s.current.value;
      HoldersUpdate(HoldsPermit, s.batches, b, t.batches[b]);
      SlotsUpdate(s.batches, b, t.batches[b]);
    }
  }

  /** An answer touches only a channel that no unstarted batch carries. */
  lemma AnswerOk<Q, R>(cfg: Config, submitted: seq<Q>, s: State<Q, R>, b: nat, i: nat, answer: Channel<R>)
    requires Inv(cfg, submitted, s) && HasSlot(s, b, i) && s.batches[b].Started() && !answer.Waiting?
    requires s.channels[s.batches[b].items[i].channel].Waiting?
    ensures Inv(cfg, submitted, s.(channels := s.channels[s.batches[b].items[i].channel := answer]))
  {
    var chan := s.batches[b].items[i].channel;
    forall b', i' | 0 <= b' < |s.batches| && 0 <= i' < |s.batches[b'].items| && !s.batches[b'].Started()
      ensures s.batches[b'].items[i'].channel != chan
    {
      SlotAt(s.batches, b, i);
      SlotAt(s.batches, b', i');
      if b < b' {
        OffsetsIncrease(s.batches, b, b');
      } else {
        OffsetsIncrease(s.batches, b', b);
      }
    }
  }

  lemma ReceiveOk<Q, R>(cfg: Config, submitted: seq<Q>, s: State<Q, R>, c: nat)
    requires Inv(cfg, submitted, s) && Enabled(cfg, s, Receive(c))
    ensures Inv(cfg, submitted, Next(cfg, s, Receive(c)))
  {
    var t := Next(cfg, s, Receive(c));
    assert CallOk(submitted, t.channels, t.calls[c]) by {
      assert CallOk(submitted, s.channels, s.calls[c]);
    }
  }

  lemma NextOk<Q, R>(cfg: Config, submitted: seq<Q>, s: State<Q, R>, step: Step<Q, R>)
    requires Inv(cfg, submitted, s)
    ensures Inv(cfg, if step.Submit? then submitted + step.items else submitted, Next(cfg, s, step))
  {
    var t := Next(cfg, s, step);
    if Enabled(cfg, s, step) {
      match step
      case Submit(items) => SubmitStepOk(cfg, submitted, s, items);
      case Pass(to) =>
      case TimerWake => TimerWakeOk(cfg, submitted, s);
      case Grant(b) => PhaseStepOk(cfg, submitted, s, t, b, Running);
      case Reply(b, i, reply) => AnswerOk(cfg, submitted, s, b, i, Sent(reply));
      case DropSender(b, i) => AnswerOk(cfg, submitted, s, b, i, Dropped);
      case Return(b) => PhaseStepOk(cfg, submitted, s, t, b, Returned);
      case Receive(c) => ReceiveOk(cfg, submitted, s, c);
    }
  }

  lemma {:induction false} ExecOk<Q, R>(cfg: Config, steps: seq<Step<Q, R>>)
    ensures Inv(cfg, Submitted(steps), Exec(cfg, steps))
  {
    if steps != [] {
      var n := |steps| - 1;
      ExecOk(cfg, steps[..n]);
      NextOk(cfg, Submitted(steps[..n]), Exec(cfg, steps[..n]), steps[n]);
    }
  }

  // ---------------------------------------------------------------- main results

  /** Conservation: in every reachable state request k sits in exactly one position of exactly
      one batch, with its own reply channel, and batches keep submission order. */
  lemma EachRequestInOnePlace<Q, R>(cfg: Config, steps: seq<Step<Q, R>>, k: nat) returns (b: nat, i: nat)
    requires k < |Submitted(steps)|
    ensures var s := Exec(cfg, steps);
            && b < |s.batches| && i < |s.batches[b].items|
            && s.batches[b].items[i] == Slot(Submitted(steps)[k], k)
            && (forall b', i' :: 0 <= b' < |s.batches| && 0 <= i' < |s.batches[b'].items| ==>
                  s.batches[b'].items[i'].channel == k ==> b' == b && i' == i)
            && |s.channels| == |Submitted(steps)|
            && (!s.channels[k].Waiting? ==> s.batches[b].Started())
  {
    ExecOk(cfg, steps);
    var s := Exec(cfg, steps);
    b, i := Locate(s.batches, k);
    SlotAt(s.batches, b, i);
    forall b', i' | 0 <= b' < |s.batches| && 0 <= i' < |s.batches[b'].items| && s.batches[b'].items[i'].channel == k
      ensures b' == b && i' == i
    {
      SlotAt(s.batches, b', i');
      if b < b' {
        OffsetsIncrease(s.batches, b, b');
      } else if b' < b {
        OffsetsIncrease(s.batches, b', b);
      }
    }
  }

  /** Entry j is the reply sent for item j, or None when its sender was dropped unsent. */
  ghost predicate Answers<Q, R>(submitted: seq<Q>, channels: seq<Channel<R>>, call: Call<Q, R>, j: nat)
    requires j < |call.input| == |call.results| && call.base + |call.input| <= |submitted| == |channels|
  {
    && call.input[j] == submitted[call.base + j]
    && Got(channels[call.base + j], call.results[j])
  }

  lemma CallAnswers<Q, R>(submitted: seq<Q>, channels: seq<Channel<R>>, call: Call<Q, R>, j: nat)
    requires CallOk(submitted, channels, call) && j < |call.input| == |call.results|
    ensures Answers(submitted, channels, call, j)
  {
    assert submitted[call.base..call.base + |call.input|][j] == submitted[call.base + j];
  }

  /** A call that has received everything holds one answer per input, in input order. */
  lemma ExecuteManyAnswersEachItem<Q, R>(cfg: Config, steps: seq<Step<Q, R>>, c: nat)
    requires c < |Exec(cfg, steps).calls|
    requires |Exec(cfg, steps).calls[c].results| == |Exec(cfg, steps).calls[c].input|
    ensures var s := Exec(cfg, steps);
            var call := s.calls[c];
            && call.base + |call.input| <= |s.channels| == |Submitted(steps)|
            && (forall j :: 0 <= j < |call.input| ==> Answers(Submitted(steps), s.channels, call, j))
  {
    ExecOk(cfg, steps);
    var s, submitted := Exec(cfg, steps), Submitted(steps);
    var call := s.calls[c];
    forall j | 0 <= j < |call.input| ensures Answers(submitted, s.channels, call, j) {
      CallAnswers(submitted, s.channels, call, j);
    }
  }

  /** An answered channel never changes: a oneshot sender is consumed by its one use. */
  lemma AnswersAreFinal<Q, R>(cfg: Config, steps: seq<Step<Q, R>>, step: Step<Q, R>, k: nat)
    requires k < |Exec(cfg, steps).channels| && !Exec(cfg, steps).channels[k].Waiting?
    ensures k < |Exec(cfg, steps + [step]).channels|
    ensures Exec(cfg, steps + [step]).channels[k] == Exec(cfg, steps).channels[k]
  {
    assert (steps + [step])[..|steps|] == steps;
  }

  lemma Bounds<Q, R>(cfg: Config, steps: seq<Step<Q, R>>)
    ensures var s := Exec(cfg, steps);
            && (forall b :: 0 <= b < |s.batches| ==>
                  && 1 <= |s.batches[b].items| <= cfg.Capacity()
                  && (s.current == Some(b) ==> |s.batches[b].items| < cfg.Capacity()))
            && s.permits + Holders(HoldsPermit, s.batches) == cfg.Permits()
            && (s.permits == 0 ==> exists b :: 0 <= b < |s.batches| && s.batches[b].phase.Running?)
  {
    ExecOk(cfg, steps);
    var s := Exec(cfg, steps);
    if s.permits == 0 {
      SomebodyHolds(HoldsPermit, s.batches);
    }
  }

  lemma DispatchedInTime<Q, R>(cfg: Config, steps: seq<Step<Q, R>>)
    ensures var s := Exec(cfg, steps);
            && (s.current.Some? ==>
                  && s.current.value < |s.batches|
                  && s.batches[s.current.value].createdAt <= s.timer.now
                     <= s.batches[s.current.value].createdAt + cfg.delay + cfg.slack)
            && (var t := Next(cfg, s, TimerWake);
                s.current.Some? && s.timer.wakeAt <= s.timer.now ==>
                  (t.current.None? <==> s.timer.now >= s.batches[s.current.value].createdAt + cfg.delay))
            && (var t := Next(cfg, s, TimerWake);
                t.current != s.current ==>
                  && s.timer.now >= s.batches[s.current.value].createdAt + cfg.delay
                  && t.batches == WithPhase(s.batches, s.current.value, Queued))
  {
    ExecOk(cfg, steps);
    var s := Exec(cfg, steps);
    if Enabled(cfg, s, TimerWake) {
      WakeOnTime(s.timer, cfg.delay, cfg.slack, OpenSince(s.batches, s.current));
    }
  }
}
