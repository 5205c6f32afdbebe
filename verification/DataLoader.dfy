/** `DataLoader` (crates/batching/src/dataloader.rs) as a state machine. */
module DataLoader {
  // Everything between taking and releasing the mutex is one step, because no await point lies
  // inside; every await point of `load_many`, `batch_loop` and `Batch::spawn` separates two
  // steps.  A run is any finite sequence of step requests, in any order; a request that is not
  // enabled leaves the state alone, so a theorem about `Exec` is about every interleaving.

  import opened Wrappers
  import opened BatchTimer
  import opened Semaphore

  // ---------------------------------------------------------------- data model

  /** How far a batch has come: `Open` is `current_batch`, `Queued` waits for a permit,
      `Running` is inside `executor.load`, `Stored` has set the once-cell, `Released` has
      dropped the ticket and `Finished` has dropped the guard that cancels the token. */
  datatype Phase = Open | Queued | Running | Stored | Released | Finished

  /** A batch together with its shared `BatchResult`: `cell` is the once-cell `values` and
      `cancelled` the token. */
  datatype Batch<K, V> = Batch(
    items: set<K>, createdAt: nat, phase: Phase, cell: Option<Option<map<K, V>>>, cancelled: bool)
  {
    /** What `BatchResult::wait` returns once the token is cancelled. */
    function Wait(): Result<map<K, V>, ()> {
      if cell.Some? && cell.value.Some? then Ok(cell.value.value) else Err(())
    }

    predicate Succeeded() {
      cancelled && Wait().Ok?
    }
  }

  /** A `BatchWaiting` entry; `batch` indexes the batch whose result it shares. */
  datatype Waiting<K> = Waiting(keys: set<K>, batch: nat)

  datatype Outcome<K, V> = Pending | Returned(result: Result<map<K, V>, ()>) | Abandoned

  /** One call of `load_many`. */
  datatype Load<K, V> = Load(
    input: seq<K>, waiters: seq<Waiting<K>>, next: nat, results: map<K, V>, outcome: Outcome<K, V>)

  /** `stuck` records that the `unreachable!` branch of `Batch::spawn` ran. */
  datatype State<K, V> = State(
    batches: seq<Batch<K, V>>, current: Option<nat>, permits: nat,
    loads: seq<Load<K, V>>, timer: Timer, stuck: bool)

  function Init<K, V>(cfg: Config): State<K, V> {
    State([], None, cfg.Permits(), [], Started(cfg.delay), false)
  }

  // ---------------------------------------------------------------- submit, under the lock

  /** The variables of the `for item in items` loop of `load_many`. */
  datatype Submission<K, V> = Submission(
    batches: seq<Batch<K, V>>, current: Option<nat>, waiters: seq<Waiting<K>>, newBatch: bool)
  {
    ghost predicate WellFormed() {
      && (current.Some? ==> current.value < |batches|)
      && (current.Some? && !newBatch ==> waiters != [] && waiters[|waiters| - 1].batch == current.value)
    }
  }

  function NewBatch<K, V>(now: nat): Batch<K, V> {
    Batch({}, now, Open, None, false)
  }

  /** The receiving batch with `item` inserted, dispatched if that fills it. */
  function Grow<K, V>(capacity: nat, batch: Batch<K, V>, item: K): Batch<K, V> {
    var items := batch.items + {item};
    batch.(items := items, phase := if |items| >= capacity then Queued else batch.phase)
  }

  /** One iteration of the loop. */
  function SubmitOne<K, V>(capacity: nat, now: nat, u: Submission<K, V>, item: K): (r: Submission<K, V>)
    requires u.WellFormed()
    ensures r.WellFormed()
  {
    var opens := u.current.None?;
    var b := if opens then |u.batches| else u.current.value;
    var grown := Grow(capacity, if opens then NewBatch(now) else u.batches[b], item);
    Submission(
      if opens then u.batches + [grown] else u.batches[b := grown],
      if |grown.items| >= capacity then None else Some(b),
      if opens || u.newBatch then u.waiters + [Waiting({item}, b)]
      else var n := |u.waiters| - 1; u.waiters[n := u.waiters[n].(keys := u.waiters[n].keys + {item})],
      false)
  }

  function SubmitAll<K, V>(capacity: nat, now: nat, u: Submission<K, V>, items: seq<K>): (r: Submission<K, V>)
    requires u.WellFormed()
    ensures r.WellFormed()
  {
    if items == [] then u
    else SubmitOne(capacity, now, SubmitAll(capacity, now, u, items[..|items| - 1]), items[|items| - 1])
  }

  /** The shared state that the mutex guards, updated in place. */
  class Shared<K(==), V> {
    const capacity: nat
    var batches: seq<Batch<K, V>>
    var currentBatch: Option<nat>

    ghost predicate Valid()
      reads this
    {
      currentBatch.Some? ==> currentBatch.value < |batches|
    }

    constructor (batchSize: nat)
      ensures Valid() && batches == [] && currentBatch == None
      ensures capacity == if batchSize < 1 then 1 else batchSize
    {
      capacity := if batchSize < 1 then 1 else batchSize;
      batches, currentBatch := [], None;
    }

    /** The body of the `for item in items` loop of `load_many`. */
    method SubmitItem(item: K, now: nat, waiters: seq<Waiting<K>>, newBatch: bool)
      returns (joined: seq<Waiting<K>>)
      requires Submission(batches, currentBatch, waiters, newBatch).WellFormed()
      modifies this
      ensures Submission(batches, currentBatch, joined, false)
           == SubmitOne(capacity, now, Submission(old(batches), old(currentBatch), waiters, newBatch), item)
    {
      var fresh? := newBatch;
      if currentBatch.None? {
        batches, currentBatch, fresh? := batches + [NewBatch(now)], Some(|batches|), true;
      }
      var b := currentBatch.value;
      batches := batches[b := batches[b].(items := batches[b].items + {item})];
      joined := if fresh? then waiters + [Waiting({}, b)] else waiters;
      var last := joined[|joined| - 1];
      joined := joined[|joined| - 1 := last.(keys := last.keys + {item})];
      if |batches[b].items| >= capacity {
        batches, currentBatch := batches[b := batches[b].(phase := Queued)], None;
      }
    }

    /** The critical section of `load_many`. */
    method Submit(items: seq<K>, now: nat) returns (waiters: seq<Waiting<K>>)
      requires Valid()
      modifies this
      ensures Valid()
      ensures var u := SubmitAll(capacity, now, Submission(old(batches), old(currentBatch), [], true), items);
              batches == u.batches && currentBatch == u.current && waiters == u.waiters
    {
      ghost var start := Submission(batches, currentBatch, [], true);
      var newBatch := true;
      waiters := [];
      for i := 0 to |items|
        invariant Submission(batches, currentBatch, waiters, newBatch) == SubmitAll(capacity, now, start, items[..i])
      {
        assert items[..i + 1][..i] == items[..i];
        waiters := SubmitItem(items[i], now, waiters, newBatch);
        newBatch := false;
      }
      assert items[..|items|] == items;
    }

    /** The body of `batch_loop` after it has woken and locked: returns the next sleep. */
    method TimerBody(delay: nat, now: nat) returns (delayDelta: nat)
      requires Valid()
      modifies this
      ensures Valid()
      ensures var (sleep, taken) := Decide(delay, now, OpenSince(old(batches), old(currentBatch)));
              && delayDelta == sleep
              && currentBatch == (if taken then None else old(currentBatch))
              && batches == if taken then Dispatch(old(batches), old(currentBatch).value) else old(batches)
    {
      delayDelta := delay;
      if currentBatch.Some? {
        var b := currentBatch.value;
        var remaining := SaturatingSub(delay, SaturatingSub(now, batches[b].createdAt));
        if remaining == 0 {
          batches, currentBatch := batches[b := batches[b].(phase := Queued)], None;
        } else {
          delayDelta := remaining;
        }
      }
    }
  }

  // ---------------------------------------------------------------- steps

  datatype Step<K, V> =
    | Submit(items: seq<K>)                                // `load_many` up to the end of its critical section
    | Pass(to: nat)                                        // time passes
    | TimerWake                                            // `batch_loop` wakes and holds the lock
    | Grant(batch: nat)                                    // the semaphore hands out a permit
    | Store(batch: nat, answer: Option<map<K, V>>)         // `executor.load` returns, the cell is set
    | FetchPanics(batch: nat)                              // `executor.load` panics: the ticket is dropped
    | Release(batch: nat)                                  // the ticket is dropped
    | Cancel(batch: nat)                                   // the guard is dropped: the token is cancelled
    | Resume(load: nat)                                    // a `load_many` call passes its current await
    | Abandon(load: nat)                                   // its future is dropped

  ghost predicate Enabled<K, V>(cfg: Config, s: State<K, V>, step: Step<K, V>) {
    match step
    case Submit(_) => s.current.Some? ==> s.current.value < |s.batches|
    case Pass(to) => MayPass(s.timer, cfg.slack, to)
    case TimerWake => s.timer.wakeAt <= s.timer.now && (s.current.Some? ==> s.current.value < |s.batches|)
    case Grant(b) => b < |s.batches| && s.batches[b].phase.Queued? && s.permits > 0
    case Store(b, _) => b < |s.batches| && s.batches[b].phase.Running?
    case FetchPanics(b) => b < |s.batches| && s.batches[b].phase.Running?
    case Release(b) => b < |s.batches| && s.batches[b].phase.Stored?
    case Cancel(b) => b < |s.batches| && s.batches[b].phase.Released?
    case Resume(l) => l < |s.loads| && s.loads[l].outcome.Pending? && Ready(s.batches, s.loads[l])
    case Abandon(l) => l < |s.loads| && s.loads[l].outcome.Pending?
  }

  /** `BatchResult::wait` blocks until the token is cancelled. */
  ghost predicate Ready<K, V>(batches: seq<Batch<K, V>>, load: Load<K, V>) {
    load.next < |load.waiters| ==>
      var b := load.waiters[load.next].batch;
      b < |batches| && batches[b].cancelled
  }

  function OpenSince<K, V>(batches: seq<Batch<K, V>>, current: Option<nat>): Option<nat>
    requires current.Some? ==> current.value < |batches|
  {
    if current.None? then None else Some(batches[current.value].createdAt)
  }

  function Dispatch<K, V>(batches: seq<Batch<K, V>>, b: nat): seq<Batch<K, V>>
    requires b < |batches|
  {
    batches[b := batches[b].(phase := Queued)]
  }

  function Restrict<K, V>(values: map<K, V>, keys: set<K>): map<K, V> {
    map k | k in keys && k in values :: values[k]
  }

  /** One turn of the `for waiting in waiters` loop of `load_many`, or its return. */
  ghost function ResumeLoad<K, V>(batches: seq<Batch<K, V>>, load: Load<K, V>): Load<K, V>
    requires Ready(batches, load)
  {
    if load.next >= |load.waiters| then load.(outcome := Returned(Ok(load.results)))
    else
      var waiting := load.waiters[load.next];
      match batches[waiting.batch].Wait()
      case Err(_) => load.(outcome := Returned(Err(())))
      case Ok(values) =>
        load.(results := load.results + Restrict(values, waiting.keys), next := load.next + 1)
  }

  ghost function Next<K, V>(cfg: Config, s: State<K, V>, step: Step<K, V>): State<K, V> {
    if !Enabled(cfg, s, step) then s
    else match step
      case Submit(items) =>
        var u := SubmitAll(cfg.Capacity(), s.timer.now, Submission(s.batches, s.current, [], true), items);
        s.(batches := u.batches, current := u.current,
           loads := s.loads + [Load(items, u.waiters, 0, map[], Pending)])
      case Pass(to) => s.(timer := s.timer.(now := to))
      case TimerWake =>
        var since := OpenSince(s.batches, s.current);
        var t := s.(timer := Wake(s.timer, cfg.delay, since));
        if Decide(cfg.delay, s.timer.now, since).1
        then t.(batches := Dispatch(s.batches, s.current.value), current := None)
        else t
      case Grant(b) => s.(batches := s.batches[b := s.batches[b].(phase := Running)], permits := s.permits - 1)
      case Store(b, answer) =>
        if s.batches[b].cell.Some? then s.(stuck := true)
        else s.(batches := s.batches[b := s.batches[b].(cell := Some(answer), phase := Stored)])
      case FetchPanics(b) => s.(batches := s.batches[b := s.batches[b].(phase := Released)], permits := s.permits + 1)
      case Release(b) => s.(batches := s.batches[b := s.batches[b].(phase := Released)], permits := s.permits + 1)
      case Cancel(b) => s.(batches := s.batches[b := s.batches[b].(phase := Finished, cancelled := true)])
      case Resume(l) => s.(loads := s.loads[l := ResumeLoad(s.batches, s.loads[l])])
      case Abandon(l) => s.(loads := s.loads[l := s.loads[l].(outcome := Abandoned)])
  }

  ghost function Exec<K, V>(cfg: Config, steps: seq<Step<K, V>>): State<K, V> {
    if steps == [] then Init(cfg)
    else Next(cfg, Exec(cfg, steps[..|steps| - 1]), steps[|steps| - 1])
  }

  // ---------------------------------------------------------------- invariant

  ghost predicate BatchOk<K, V>(capacity: nat, batch: Batch<K, V>) {
    && 1 <= |batch.items| <= capacity
    && (batch.phase.Open? ==> |batch.items| < capacity)
    && (batch.phase.Open? || batch.phase.Queued? || batch.phase.Running? ==> batch.cell.None?)
    && (batch.phase.Stored? ==> batch.cell.Some?)
    && (batch.phase.Finished? <==> batch.cancelled)
  }

  ghost predicate BatchesOk<K, V>(capacity: nat, batches: seq<Batch<K, V>>, current: Option<nat>) {
    && (current.Some? ==> |batches| > 0 && current.value == |batches| - 1)
    && forall b :: 0 <= b < |batches| ==>
         BatchOk(capacity, batches[b]) && (batches[b].phase.Open? <==> current == Some(b))
  }

  function HoldsPermit<K, V>(batch: Batch<K, V>): bool {
    batch.phase.Running? || batch.phase.Stored?
  }

  /** Batches only grow, and one whose token is cancelled never changes again. */
  ghost predicate Extends<K, V>(a: seq<Batch<K, V>>, b: seq<Batch<K, V>>) {
    |a| <= |b| && forall i :: 0 <= i < |a| ==> a[i].items <= b[i].items && (a[i].cancelled ==> b[i] == a[i])
  }

  function KeysOf<K>(waiters: seq<Waiting<K>>): set<K> {
    if waiters == [] then {} else KeysOf(waiters[..|waiters| - 1]) + waiters[|waiters| - 1].keys
  }

  function Elements<K>(items: seq<K>): set<K> {
    set k | k in items
  }

  /** What a waiter takes from the answer of its batch: the values of its own keys. */
  function Taken<K, V>(batches: seq<Batch<K, V>>, w: Waiting<K>): map<K, V> {
    if w.batch < |batches| && batches[w.batch].Wait().Ok? then Restrict(batches[w.batch].Wait().value, w.keys) else map[]
  }

  /** All waiters together; where several batches answer one key, the last answer counts. */
  function Collected<K, V>(batches: seq<Batch<K, V>>, waiters: seq<Waiting<K>>): map<K, V> {
    if waiters == [] then map[]
    else Collected(batches, waiters[..|waiters| - 1]) + Taken(batches, waiters[|waiters| - 1])
  }

  ghost predicate Joined<K, V>(batches: seq<Batch<K, V>>, waiters: seq<Waiting<K>>) {
    forall i :: 0 <= i < |waiters| ==>
      waiters[i].batch < |batches| && waiters[i].keys <= batches[waiters[i].batch].items
  }

  ghost predicate LoadOk<K, V>(batches: seq<Batch<K, V>>, load: Load<K, V>) {
    && Joined(batches, load.waiters)
    && KeysOf(load.waiters) == Elements(load.input)
    && load.next <= |load.waiters|
    && (forall i :: 0 <= i < load.next ==> batches[load.waiters[i].batch].Succeeded())
    && load.results == Collected(batches, load.waiters[..load.next])
    && (load.outcome.Returned? ==>
          if load.outcome.result.Ok?
          then load.next == |load.waiters| && load.outcome.result.value == load.results
          else load.next < |load.waiters|
               && batches[load.waiters[load.next].batch].cancelled
               && !batches[load.waiters[load.next].batch].Succeeded())
  }

  ghost predicate Inv<K, V>(cfg: Config, s: State<K, V>) {
    && BatchesOk(cfg.Capacity(), s.batches, s.current)
    && s.permits + Holders(HoldsPermit, s.batches) == cfg.Permits()
    && (forall l :: 0 <= l < |s.loads| ==> LoadOk(s.batches, s.loads[l]))
    && OnTime(s.timer, cfg.delay, cfg.slack, OpenSince(s.batches, s.current))
    && !s.stuck
  }

  // ---------------------------------------------------------------- preservation

  lemma LoadOkExtends<K, V>(a: seq<Batch<K, V>>, b: seq<Batch<K, V>>, load: Load<K, V>)
    requires LoadOk(a, load) && Extends(a, b)
    ensures LoadOk(b, load)
  {
    CollectedExtends(a, b, load.waiters[..load.next]);
  }

  lemma {:induction false} CollectedExtends<K, V>(a: seq<Batch<K, V>>, b: seq<Batch<K, V>>, waiters: seq<Waiting<K>>)
    requires Extends(a, b)
    requires forall i :: 0 <= i < |waiters| ==> waiters[i].batch < |a| && a[waiters[i].batch].cancelled
    ensures Collected(b, waiters) == Collected(a, waiters)
  {
    if waiters != [] {
      CollectedExtends(a, b, waiters[..|waiters| - 1]);
    }
  }

  /** What the submit loop keeps after the items consumed so far. */
  ghost predicate SubmitOk<K, V>(
    cfg: Config, s: State<K, V>, items: seq<K>, u: Submission<K, V>)
    requires u.WellFormed()
  {
    && BatchesOk(cfg.Capacity(), u.batches, u.current)
    && Extends(s.batches, u.batches)
    && Holders(HoldsPermit, u.batches) == Holders(HoldsPermit, s.batches)
    && Joined(u.batches, u.waiters)
    && KeysOf(u.waiters) == Elements(items)
    && OnTime(s.timer, cfg.delay, cfg.slack, OpenSince(u.batches, u.current))
  }

  lemma GrowOk<K, V>(capacity: nat, batch: Batch<K, V>, item: K)
    requires batch.phase.Open? && |batch.items| < capacity && batch.cell.None? && !batch.cancelled
    ensures BatchOk(capacity, Grow(capacity, batch, item))
  {
    if item in batch.items {
      assert batch.items + {item} == batch.items;
    }
  }

  /** The last batch is appended or, being open, replaced. */
  ghost predicate Placed<K, V>(
    capacity: nat, batches: seq<Batch<K, V>>, current: Option<nat>,
    after: seq<Batch<K, V>>, grown: Batch<K, V>)
  {
    && BatchOk(capacity, grown) && (grown.phase.Open? || grown.phase.Queued?)
    && if current.None? then after == batches + [grown]
       else |batches| > 0 && current.value == |batches| - 1 && batches[current.value].items <= grown.items
            && after == batches[current.value := grown]
  }

  lemma PlacedOk<K, V>(
    capacity: nat, batches: seq<Batch<K, V>>, current: Option<nat>,
    after: seq<Batch<K, V>>, grown: Batch<K, V>)
    requires BatchesOk(capacity, batches, current) && Placed(capacity, batches, current, after, grown)
    ensures BatchesOk(capacity, after, if grown.phase.Open? then Some(|after| - 1) else None)
    ensures Extends(batches, after)
    ensures Holders(HoldsPermit, after) == Holders(HoldsPermit, batches)
  {
    if current.None? {
      HoldersAppend(HoldsPermit, batches, grown);
    } else {
      HoldersUpdate(HoldsPermit, batches, current.value, grown);
    }
  }

  lemma SubmitOneBatches<K, V>(
    cfg: Config, s: State<K, V>, items: seq<K>, u: Submission<K, V>, item: K)
    requires u.WellFormed() && SubmitOk(cfg, s, items, u)
    ensures var r := SubmitOne(cfg.Capacity(), s.timer.now, u, item);
            && BatchesOk(cfg.Capacity(), r.batches, r.current)
            && Extends(u.batches, r.batches)
            && Holders(HoldsPermit, r.batches) == Holders(HoldsPermit, s.batches)
            && OnTime(s.timer, cfg.delay, cfg.slack, OpenSince(r.batches, r.current))
  {
    var r := SubmitOne(cfg.Capacity(), s.timer.now, u, item);
    var batch := if u.current.None? then NewBatch(s.timer.now) else u.batches[u.current.value];
    GrowOk(cfg.Capacity(), batch, item);
    PlacedOk(cfg.Capacity(), u.batches, u.current, r.batches, Grow(cfg.Capacity(), batch, item));
  }

  lemma SubmitOneKeys<K, V>(capacity: nat, now: nat, u: Submission<K, V>, item: K, items: seq<K>)
    requires u.WellFormed() && KeysOf(u.waiters) == Elements(items)
    ensures KeysOf(SubmitOne(capacity, now, u, item).waiters) == Elements(items + [item])
  {
    var r := SubmitOne(capacity, now, u, item);
    var n := |r.waiters| - 1;
    assert r.waiters[..n] == u.waiters[..n];
    assert |u.waiters| == n ==> u.waiters[..n] == u.waiters;
    assert Elements(items + [item]) == Elements(items) + {item};
  }

  lemma SubmitOneJoined<K, V>(capacity: nat, now: nat, u: Submission<K, V>, item: K)
    requires u.WellFormed() && Joined(u.batches, u.waiters)
    ensures var r := SubmitOne(capacity, now, u, item); Joined(r.batches, r.waiters)
  {
  }

  lemma SubmitOneOk<K, V>(
    cfg: Config, s: State<K, V>, items: seq<K>, u: Submission<K, V>, item: K)
    requires u.WellFormed() && SubmitOk(cfg, s, items, u)
    ensures SubmitOk(cfg, s, items + [item], SubmitOne(cfg.Capacity(), s.timer.now, u, item))
  {
    SubmitOneBatches(cfg, s, items, u, item);
    SubmitOneKeys(cfg.Capacity(), s.timer.now, u, item, items);
    SubmitOneJoined(cfg.Capacity(), s.timer.now, u, item);
    ExtendsTransitive(s.batches, u.batches, SubmitOne(cfg.Capacity(), s.timer.now, u, item).batches);
  }

  lemma ExtendsTransitive<K, V>(a: seq<Batch<K, V>>, b: seq<Batch<K, V>>, c: seq<Batch<K, V>>)
    requires Extends(a, b) && Extends(b, c)
    ensures Extends(a, c)
  {
  }

  lemma {:induction false} SubmitAllOk<K, V>(cfg: Config, s: State<K, V>, items: seq<K>)
    requires Inv(cfg, s)
    ensures SubmitOk(cfg, s, items,
              SubmitAll(cfg.Capacity(), s.timer.now, Submission(s.batches, s.current, [], true), items))
  {
    var start := Submission(s.batches, s.current, [], true);
    if items != [] {
      var n := |items| - 1;
      assert items[..n] + [items[n]] == items;
      SubmitAllOk(cfg, s, items[..n]);
      SubmitOneOk(cfg, s, items[..n], SubmitAll(cfg.Capacity(), s.timer.now, start, items[..n]), items[n]);
    } else {
      assert SubmitOk(cfg, s, [], start);
    }
  }

  lemma ResumeOk<K, V>(cfg: Config, s: State<K, V>, l: nat)
    requires Inv(cfg, s) && l < |s.loads| && s.loads[l].outcome.Pending? && Ready(s.batches, s.loads[l])
    ensures LoadOk(s.batches, ResumeLoad(s.batches, s.loads[l]))
  {
    var load := s.loads[l];
    if load.next < |load.waiters| {
      var waiting := load.waiters[load.next];
      var batch := s.batches[waiting.batch];
      if batch.Wait().Ok? {
        assert load.waiters[..load.next + 1][..load.next] == load.waiters[..load.next];
      }
    } else {
      assert load.waiters[..load.next] == load.waiters;
    }
  }

  /** A step of one spawned batch: a batch past `Open` changes and keeps its keys. */
  lemma BatchStep<K, V>(cfg: Config, s: State<K, V>, t: State<K, V>, b: nat)
    requires Inv(cfg, s) && b < |s.batches| && |t.batches| == |s.batches|
    requires t == s.(batches := s.batches[b := t.batches[b]], permits := t.permits)
    requires !s.batches[b].phase.Open? && !s.batches[b].cancelled && !t.batches[b].phase.Open?
    requires t.batches[b].items == s.batches[b].items && BatchOk(cfg.Capacity(), t.batches[b])
    requires t.permits + (if HoldsPermit(t.batches[b]) then 1 else 0)
          == s.permits + (if HoldsPermit(s.batches[b]) then 1 else 0)
    ensures Inv(cfg, t)
  {
    HoldersUpdate(HoldsPermit, s.batches, b, t.batches[b]);
    forall l | 0 <= l < |t.loads| ensures LoadOk(t.batches, t.loads[l]) {
      LoadOkExtends(s.batches, t.batches, s.loads[l]);
    }
  }

  lemma DispatchOk<K, V>(cfg: Config, s: State<K, V>, timer: Timer)
    requires Inv(cfg, s) && s.current.Some? && OnTime(timer, cfg.delay, cfg.slack, None)
    ensures Inv(cfg, s.(timer := timer, batches := Dispatch(s.batches, s.current.value), current := None))
  {
    var b := s.current.value;
    var after := Dispatch(s.batches, b);
    HoldersUpdate(HoldsPermit, s.batches, b, after[b]);
    forall l | 0 <= l < |s.loads| ensures LoadOk(after, s.loads[l]) {
      LoadOkExtends(s.batches, after, s.loads[l]);
    }
  }

  lemma TimerWakeOk<K, V>(cfg: Config, s: State<K, V>)
    requires Inv(cfg, s) && s.timer.wakeAt <= s.timer.now
    ensures Inv(cfg, Next(cfg, s, TimerWake))
  {
    var since := OpenSince(s.batches, s.current);
    WakeOnTime(s.timer, cfg.delay, cfg.slack, since);
    if Decide(cfg.delay, s.timer.now, since).1 {
      DispatchOk(cfg, s, Wake(s.timer, cfg.delay, since));
    }
  }

  lemma SubmitStepOk<K, V>(cfg: Config, s: State<K, V>, items: seq<K>)
    requires Inv(cfg, s)
    ensures Inv(cfg, Next(cfg, s, Submit(items)))
  {
    var t := Next(cfg, s, Submit(items));
    SubmitAllOk(cfg, s, items);
    forall l | 0 <= l < |t.loads| ensures LoadOk(t.batches, t.loads[l]) {
      if l < |s.loads| {
        LoadOkExtends(s.batches, t.batches, s.loads[l]);
      }
    }
  }

  lemma LoadStepOk<K, V>(cfg: Config, s: State<K, V>, l: nat, load: Load<K, V>)
    requires Inv(cfg, s) && l < |s.loads| && LoadOk(s.batches, load)
    ensures Inv(cfg, s.(loads := s.loads[l := load]))
  {
  }

  lemma NextOk<K, V>(cfg: Config, s: State<K, V>, step: Step<K, V>)
    requires Inv(cfg, s)
    ensures Inv(cfg, Next(cfg, s, step))
  {
    var t := Next(cfg, s, step);
    if Enabled(cfg, s, step) {
      match step
      case Submit(items) => SubmitStepOk(cfg, s, items);
      case Pass(to) =>
      case TimerWake => TimerWakeOk(cfg, s);
      case Grant(b) => BatchStep(cfg, s, t, b);
      case Store(b, answer) => BatchStep(cfg, s, t, b);
      case FetchPanics(b) => BatchStep(cfg, s, t, b);
      case Release(b) => BatchStep(cfg, s, t, b);
      case Cancel(b) => BatchStep(cfg, s, t, b);
      case Resume(l) =>
        ResumeOk(cfg, s, l);
        LoadStepOk(cfg, s, l, ResumeLoad(s.batches, s.loads[l]));
      case Abandon(l) => LoadStepOk(cfg, s, l, s.loads[l].(outcome := Abandoned));
    }
  }

  lemma {:induction false} ExecOk<K, V>(cfg: Config, steps: seq<Step<K, V>>)
    ensures Inv(cfg, Exec(cfg, steps))
  {
    if steps != [] {
      ExecOk(cfg, steps[..|steps| - 1]);
      NextOk(cfg, Exec(cfg, steps[..|steps| - 1]), steps[|steps| - 1]);
    }
  }

  // ---------------------------------------------------------------- main results

  /** Refinement, for any fetcher: whatever the interleaving, a returned `load_many` is Ok exactly
      when every batch it joined has finished with an answer in its cell, and then it is what its
      batches answered. */
  lemma LoadManyCollects<K, V>(cfg: Config, steps: seq<Step<K, V>>, l: nat)
    requires l < |Exec(cfg, steps).loads| && Exec(cfg, steps).loads[l].outcome.Returned?
    ensures var s := Exec(cfg, steps);
            var load := s.loads[l];
            && Joined(s.batches, load.waiters) && KeysOf(load.waiters) == Elements(load.input)
            && (load.outcome.result.Ok? <==>
                  forall i :: 0 <= i < |load.waiters| ==>
                    var batch := s.batches[load.waiters[i].batch];
                    batch.cancelled && batch.cell.Some? && batch.cell.value.Some?)
            && (load.outcome.result.Ok? ==> load.outcome.result.value == Collected(s.batches, load.waiters))
  {
    ExecOk(cfg, steps);
    var load := Exec(cfg, steps).loads[l];
    if load.outcome.result.Ok? {
      assert load.waiters[..load.next] == load.waiters;
    }
  }

  /** The batch behind waiter `i` answered the key `k` for it. */
  ghost predicate Answers<K, V>(batches: seq<Batch<K, V>>, waiters: seq<Waiting<K>>, i: nat, k: K) {
    && i < |waiters| && k in waiters[i].keys && waiters[i].batch < |batches|
    && var cell := batches[waiters[i].batch].cell; cell.Some? && cell.value.Some? && k in cell.value.value
  }

  lemma {:induction false} CollectedFrom<K, V>(batches: seq<Batch<K, V>>, waiters: seq<Waiting<K>>, k: K) returns (i: nat)
    ensures k in Collected(batches, waiters) ==>
              && Answers(batches, waiters, i, k)
              && Collected(batches, waiters)[k] == batches[waiters[i].batch].cell.value.value[k]
              && forall j :: i < j < |waiters| ==> !Answers(batches, waiters, j, k)
    ensures k !in Collected(batches, waiters) ==> forall j :: 0 <= j < |waiters| ==> !Answers(batches, waiters, j, k)
  {
    i := 0;
    if waiters != [] {
      var n := |waiters| - 1;
      i := CollectedFrom(batches, waiters[..n], k);
      if k in Taken(batches, waiters[n]) {
        i := n;
      }
      forall j | 0 <= j < n ensures Answers(batches, waiters, j, k) == Answers(batches, waiters[..n], j, k) {
      }
    }
  }

  /** Every key of an Ok result was asked for and has the value that the fetch of its own batch
      stored (the last such batch, if the key was asked for in several); a key that was asked for
      is missing only if none of its batches answered it. */
  lemma EachKeyFromItsOwnBatch<K, V>(cfg: Config, steps: seq<Step<K, V>>, l: nat, k: K) returns (i: nat)
    requires l < |Exec(cfg, steps).loads|
    requires Exec(cfg, steps).loads[l].outcome.Returned? && Exec(cfg, steps).loads[l].outcome.result.Ok?
    ensures var s := Exec(cfg, steps);
            var load := s.loads[l];
            var r := load.outcome.result.value;
            && (k in r ==>
                  && k in load.input && Answers(s.batches, load.waiters, i, k)
                  && r[k] == s.batches[load.waiters[i].batch].cell.value.value[k]
                  && forall j :: i < j < |load.waiters| ==> !Answers(s.batches, load.waiters, j, k))
            && (k !in r ==> forall j :: 0 <= j < |load.waiters| ==> !Answers(s.batches, load.waiters, j, k))
  {
    LoadManyCollects(cfg, steps, l);
    var load := Exec(cfg, steps).loads[l];
    i := CollectedFrom(Exec(cfg, steps).batches, load.waiters, k);
    if k in load.outcome.result.value {
      KeyOfWaiter(load.waiters, i, k);
    }
  }

  lemma {:induction false} KeyOfWaiter<K>(waiters: seq<Waiting<K>>, i: nat, k: K)
    requires i < |waiters| && k in waiters[i].keys
    ensures k in KeysOf(waiters)
  {
    if i < |waiters| - 1 {
      KeyOfWaiter(waiters[..|waiters| - 1], i, k);
    }
  }

  // ---------------------------------------------------------------- the direct lookup

  /** A successful answer agrees with `M` on every requested key; it may hold other keys as well. */
  ghost predicate Agrees<K, V>(M: map<K, V>, keys: set<K>, answer: map<K, V>) {
    forall k :: k in keys ==> (k in answer <==> k in M) && (k in M ==> answer[k] == M[k])
  }

  /** The batches that a call joined answered from `M`. */
  ghost predicate AnsweredFrom<K, V>(M: map<K, V>, batches: seq<Batch<K, V>>, waiters: seq<Waiting<K>>) {
    forall i :: 0 <= i < |waiters| && waiters[i].batch < |batches| && batches[waiters[i].batch].Wait().Ok? ==>
      Agrees(M, batches[waiters[i].batch].items, batches[waiters[i].batch].Wait().value)
  }

  lemma {:induction false} CollectedIsLookup<K, V>(M: map<K, V>, batches: seq<Batch<K, V>>, waiters: seq<Waiting<K>>)
    requires Joined(batches, waiters) && AnsweredFrom(M, batches, waiters)
    requires forall i :: 0 <= i < |waiters| ==> batches[waiters[i].batch].Wait().Ok?
    ensures Collected(batches, waiters) == Restrict(M, KeysOf(waiters))
  {
    if waiters != [] {
      var n := |waiters| - 1;
      CollectedIsLookup(M, batches, waiters[..n]);
      assert Taken(batches, waiters[n]) == Restrict(M, waiters[n].keys) by {
        var b := batches[waiters[n].batch];
        assert Agrees(M, b.items, b.Wait().value) && waiters[n].keys <= b.items;
      }
    }
  }

  /** If the batches that it joined answered from one map, a returned `load_many` equals the direct
      lookup of exactly its own keys. */
  lemma LoadManyIsDirectLookup<K, V>(cfg: Config, M: map<K, V>, steps: seq<Step<K, V>>, l: nat)
    requires l < |Exec(cfg, steps).loads| && Exec(cfg, steps).loads[l].outcome.Returned?
    requires AnsweredFrom(M, Exec(cfg, steps).batches, Exec(cfg, steps).loads[l].waiters)
    ensures var s := Exec(cfg, steps);
            var load := s.loads[l];
            && Joined(s.batches, load.waiters)
            && (load.outcome.result.Ok? <==>
                  forall i :: 0 <= i < |load.waiters| ==> s.batches[load.waiters[i].batch].Succeeded())
            && (load.outcome.result.Ok? ==> load.outcome.result.value == Restrict(M, Elements(load.input)))
  {
    LoadManyCollects(cfg, steps, l);
    if Exec(cfg, steps).loads[l].outcome.result.Ok? {
      CollectedIsLookup(M, Exec(cfg, steps).batches, Exec(cfg, steps).loads[l].waiters);
    }
  }

  /** `load(key)` takes any value of the returned map; it is the value of `key`, or None
      exactly when the key is unknown. */
  lemma LoadIsDirectLookup<K, V>(cfg: Config, M: map<K, V>, steps: seq<Step<K, V>>, l: nat, key: K)
    requires l < |Exec(cfg, steps).loads|
    requires Exec(cfg, steps).loads[l].input == [key]
    requires Exec(cfg, steps).loads[l].outcome.Returned? && Exec(cfg, steps).loads[l].outcome.result.Ok?
    requires AnsweredFrom(M, Exec(cfg, steps).batches, Exec(cfg, steps).loads[l].waiters)
    ensures var r := Exec(cfg, steps).loads[l].outcome.result.value;
            if key in M then r.Values == {M[key]} else r == map[]
  {
    LoadManyIsDirectLookup(cfg, M, steps, l);
    assert Elements([key]) == {key};
    if key in M {
      assert Restrict(M, {key}) == map[key := M[key]];
      var r := Exec(cfg, steps).loads[l].outcome.result.value;
      assert key in r && r[key] == M[key];
    } else {
      assert Restrict(M, {key}) == map[];
    }
  }

  /** Bounds in every reachable state; a permit is either free or held by a batch that runs. */
  lemma Bounds<K, V>(cfg: Config, steps: seq<Step<K, V>>)
    ensures var s := Exec(cfg, steps);
            && (forall b :: 0 <= b < |s.batches| ==>
                  && 1 <= |s.batches[b].items| <= cfg.Capacity()
                  && (s.current == Some(b) ==> |s.batches[b].items| < cfg.Capacity()))
            && s.permits + Holders(HoldsPermit, s.batches) == cfg.Permits()
            && (s.permits == 0 ==> exists b :: 0 <= b < |s.batches| && HoldsPermit(s.batches[b]))
  {
    ExecOk(cfg, steps);
    var s := Exec(cfg, steps);
    if s.permits == 0 {
      SomebodyHolds(HoldsPermit, s.batches);
    }
  }

  /** A submission leaves every batch alone that is not open. */
  lemma {:induction false} SubmitKeepsClosed<K, V>(cfg: Config, s: State<K, V>, items: seq<K>, b: nat)
    requires Inv(cfg, s) && b < |s.batches|
    ensures var u := SubmitAll(cfg.Capacity(), s.timer.now, Submission(s.batches, s.current, [], true), items);
            && b < |u.batches|
            && (!s.batches[b].phase.Open? ==> u.batches[b] == s.batches[b])
            && u.batches[b].cell == s.batches[b].cell && u.batches[b].cancelled == s.batches[b].cancelled
  {
    if items != [] {
      SubmitKeepsClosed(cfg, s, items[..|items| - 1], b);
      SubmitAllOk(cfg, s, items[..|items| - 1]);
    }
  }

  /** One step on the once-cell and the token of batch `b`. */
  ghost predicate CellStep<K, V>(before: Batch<K, V>, step: Step<K, V>, b: nat, after: Batch<K, V>) {
    && (before.cell.Some? ==> after.cell == before.cell)
    && (before.cancelled ==> after == before)
    && (after.cell.Some? && before.cell.None? ==>
          step.Store? && step.batch == b && after.cell == Some(step.answer) && !after.cancelled)
    && (after.cancelled && !before.cancelled ==> step == Cancel(b) && after.cell == before.cell)
  }

  /** The once-cell is set at most once, by the fetch of its own batch and before the token is
      cancelled, and the `unreachable!` branch never runs. */
  lemma CellSetOnce<K, V>(cfg: Config, steps: seq<Step<K, V>>, step: Step<K, V>, b: nat)
    requires b < |Exec(cfg, steps).batches|
    ensures var s, t := Exec(cfg, steps), Exec(cfg, steps + [step]);
            !s.stuck && b < |t.batches| && CellStep(s.batches[b], step, b, t.batches[b])
  {
    ExecOk(cfg, steps);
    assert (steps + [step])[..|steps|] == steps;
    StepOnCell(cfg, Exec(cfg, steps), step, b);
  }

  lemma StepOnCell<K, V>(cfg: Config, s: State<K, V>, step: Step<K, V>, b: nat)
    requires Inv(cfg, s) && b < |s.batches|
    ensures b < |Next(cfg, s, step).batches|
    ensures CellStep(s.batches[b], step, b, Next(cfg, s, step).batches[b])
  {
    if step.Submit? {
      SubmitKeepsClosed(cfg, s, step.items, b);
    }
    assert BatchOk(cfg.Capacity(), s.batches[b]);
  }

  lemma OneStaysUnreleased<K, V>(capacity: nat, now: nat, u: Submission<K, V>, item: K, b: nat)
    requires u.WellFormed() && (u.current.Some? ==> u.batches[u.current.value].phase.Open?)
    requires b < |u.batches| ==> u.batches[b].phase.Open? || u.batches[b].phase.Queued?
    ensures var r := SubmitOne(capacity, now, u, item);
            b < |r.batches| ==> r.batches[b].phase.Open? || r.batches[b].phase.Queued?
  {
  }

  lemma {:induction false} OpenStaysUnreleased<K, V>(cfg: Config, s: State<K, V>, items: seq<K>, b: nat)
    requires Inv(cfg, s) && (b < |s.batches| ==> s.batches[b].phase.Open?)
    ensures var u := SubmitAll(cfg.Capacity(), s.timer.now, Submission(s.batches, s.current, [], true), items);
            b < |u.batches| ==> u.batches[b].phase.Open? || u.batches[b].phase.Queued?
  {
    if items != [] {
      var n := |items| - 1;
      OpenStaysUnreleased(cfg, s, items[..n], b);
      SubmitAllOk(cfg, s, items[..n]);
      var u := SubmitAll(cfg.Capacity(), s.timer.now, Submission(s.batches, s.current, [], true), items[..n]);
      OneStaysUnreleased(cfg.Capacity(), s.timer.now, u, items[n], b);
    }
  }

  /** The ticket is gone and the cell empty. */
  predicate Unset<K, V>(batch: Batch<K, V>) {
    (batch.phase.Released? || batch.phase.Finished?) && batch.cell.None?
  }

  lemma UnsetStep<K, V>(cfg: Config, s: State<K, V>, step: Step<K, V>, b: nat)
    requires Inv(cfg, s) && step != FetchPanics(b)
    requires b < |Next(cfg, s, step).batches| && Unset(Next(cfg, s, step).batches[b])
    ensures b < |s.batches| && Unset(s.batches[b])
  {
    if step.Submit? {
      if b < |s.batches| && !s.batches[b].phase.Open? {
        SubmitKeepsClosed(cfg, s, step.items, b);
      } else {
        OpenStaysUnreleased(cfg, s, step.items, b);
      }
    } else {
      assert BatchOk(cfg.Capacity(), s.batches[b]);
    }
  }

  /** A token cancelled over an empty cell means that this very fetch panicked. */
  lemma {:induction false} UnsetMeansPanic<K, V>(cfg: Config, steps: seq<Step<K, V>>, b: nat)
    requires b < |Exec(cfg, steps).batches| && Unset(Exec(cfg, steps).batches[b])
    ensures FetchPanics(b) in steps
  {
    var n := |steps| - 1;
    if steps[n] != FetchPanics(b) {
      ExecOk(cfg, steps[..n]);
      UnsetStep(cfg, Exec(cfg, steps[..n]), steps[n], b);
      UnsetMeansPanic(cfg, steps[..n], b);
    }
  }

  /** Timeliness: with wake-ups at most `slack` late, an open batch is never older than
      `delay + slack`, and a wake-up takes the open batch exactly when that is `delay` old. */
  lemma DispatchedInTime<K, V>(cfg: Config, steps: seq<Step<K, V>>)
    ensures var s := Exec(cfg, steps);
            && (s.current.Some? ==>
                  && s.current.value < |s.batches|
                  && s.batches[s.current.value].createdAt <= s.timer.now
                     <= s.batches[s.current.value].createdAt + cfg.delay + cfg.slack)
            && (var t := Next(cfg, s, TimerWake);
                s.current.Some? && s.timer.wakeAt <= s.timer.now ==>
                  (t.current.None? <==> s.timer.now >= s.batches[s.current.value].createdAt + cfg.delay))
            && (var t := Next(cfg, s, TimerWake);
                t.current != s.current ==>
                  && s.timer.now >= s.batches[s.current.value].createdAt + cfg.delay
                  && t.batches == Dispatch(s.batches, s.current.value))
  {
    ExecOk(cfg, steps);
    var s := Exec(cfg, steps);
    if Enabled(cfg, s, TimerWake) {
      WakeOnTime(s.timer, cfg.delay, cfg.slack, OpenSince(s.batches, s.current));
    }
  }
}
