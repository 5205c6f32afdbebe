/** How `execute_many` spreads its requests over batches. */
module BatcherFilling {
  // Laid end to end, the batch that was open and those opened after it hold the requests that were
  // already there and then the new ones; all of these batches but the last are full, and a batch
  // is dispatched exactly if it is full.  This determines every batch.

  import opened Wrappers
  import opened BatchTimer
  import opened Batcher

  function First<Q>(batches: seq<Batch<Q>>, current: Option<nat>): nat {
    if current.Some? then current.value else |batches|
  }

  /** The open batch, if there is one. */
  function OpenBatch<Q>(batches: seq<Batch<Q>>, current: Option<nat>): seq<Batch<Q>> {
    if current.Some? && current.value < |batches| then [batches[current.value]] else []
  }

  /** The new requests, with channels from `base` on. */
  function Requests<Q>(items: seq<Q>, base: nat): seq<Slot<Q>> {
    seq(|items|, k requires 0 <= k < |items| => Slot(items[k], base + k))
  }

  /** Batch `i` of those that received requests at `now`; `open` is the one that was open before. */
  ghost predicate Filled<Q>(capacity: nat, now: nat, open: seq<Batch<Q>>, touched: seq<Batch<Q>>, i: nat)
    requires i < |touched|
  {
    && 1 <= |touched[i].items| <= capacity
    && touched[i].createdAt == (if i < |open| then open[i].createdAt else now)
    && touched[i].phase == (if |touched[i].items| == capacity then Queued else Open)
    && (i < |touched| - 1 ==> touched[i].phase.Queued?)
  }

  ghost predicate AllFilled<Q>(capacity: nat, now: nat, open: seq<Batch<Q>>, touched: seq<Batch<Q>>) {
    |open| <= |touched| && forall i :: 0 <= i < |touched| ==> Filled(capacity, now, open, touched, i)
  }

  /** The last of the batches, unless it is dispatched. */
  function StillOpen<Q>(batches: seq<Batch<Q>>, touched: seq<Batch<Q>>): Option<nat> {
    if touched == [] || batches == [] || touched[|touched| - 1].phase.Queued? then None else Some(|batches| - 1)
  }

  /** A submission in progress. */
  ghost predicate Progress<Q>(
    capacity: nat, now: nat, start: Submission<Q>, items: seq<Q>, touched: seq<Batch<Q>>, u: Submission<Q>)
  {
    var open := OpenBatch(start.batches, start.current);
    && First(start.batches, start.current) <= |start.batches|
    && u.batches == start.batches[..First(start.batches, start.current)] + touched
    && u.current == StillOpen(u.batches, touched)
    && u.channels == start.channels + |items|
    && Slots(touched) == Slots(open) + Requests(items, start.channels)
    && AllFilled(capacity, now, open, touched)
  }

  lemma RequestsAppend<Q>(items: seq<Q>, item: Q, base: nat)
    ensures Requests(items + [item], base) == Requests(items, base) + [Slot(item, base + |items|)]
  {
  }

  lemma AppendFilled<Q>(capacity: nat, now: nat, open: seq<Batch<Q>>, touched: seq<Batch<Q>>, slot: Slot<Q>)
    requires AllFilled(capacity, now, open, touched) && capacity > 0
    requires touched != [] ==> touched[|touched| - 1].phase.Queued?
    ensures var more := touched + [Grow(capacity, NewBatch(now), slot)];
            AllFilled(capacity, now, open, more) && Slots(more) == Slots(touched) + [slot]
  {
    var grown := Grow(capacity, NewBatch(now), slot);
    var more := touched + [grown];
    assert more[..|touched|] == touched && grown.items == [slot];
    forall i | 0 <= i < |touched| ensures Filled(capacity, now, open, more, i) {
      assert Filled(capacity, now, open, touched, i);
    }
  }

  lemma GrowFilled<Q>(capacity: nat, now: nat, open: seq<Batch<Q>>, touched: seq<Batch<Q>>, slot: Slot<Q>)
    requires AllFilled(capacity, now, open, touched) && touched != [] && touched[|touched| - 1].phase.Open?
    ensures var n := |touched| - 1;
            var more := touched[n := Grow(capacity, touched[n], slot)];
            AllFilled(capacity, now, open, more) && Slots(more) == Slots(touched) + [slot]
  {
    var n := |touched| - 1;
    var more := touched[n := Grow(capacity, touched[n], slot)];
    assert Filled(capacity, now, open, touched, n);
    assert more[..n] == touched[..n];
    forall i | 0 <= i < n ensures Filled(capacity, now, open, more, i) {
      assert Filled(capacity, now, open, touched, i);
    }
  }

  lemma OneMoreRequest<Q>(
    capacity: nat, now: nat, start: Submission<Q>, items: seq<Q>, touched: seq<Batch<Q>>, u: Submission<Q>, item: Q)
    returns (more: seq<Batch<Q>>)
    requires capacity > 0 && u.WellFormed() && Progress(capacity, now, start, items, touched, u)
    ensures Progress(capacity, now, start, items + [item], more, SubmitOne(capacity, now, u, item))
  {
    var open, slot := OpenBatch(start.batches, start.current), Slot(item, u.channels);
    var before, n := start.batches[..First(start.batches, start.current)], |touched| - 1;
    RequestsAppend(items, item, start.channels);
    if u.current.None? {
      more := touched + [Grow(capacity, NewBatch(now), slot)];
      AppendFilled(capacity, now, open, touched, slot);
      assert u.batches + [Grow(capacity, NewBatch(now), slot)] == before + more;
    } else {
      assert Filled(capacity, now, open, touched, n);
      more := touched[n := Grow(capacity, touched[n], slot)];
      GrowFilled(capacity, now, open, touched, slot);
      assert u.batches[u.current.value := Grow(capacity, touched[n], slot)] == before + more;
    }
  }

  lemma {:induction false} SubmitFills<Q>(capacity: nat, now: nat, start: Submission<Q>, items: seq<Q>)
    returns (touched: seq<Batch<Q>>)
    requires capacity > 0 && start.WellFormed() && BatchesOk(capacity, start.batches, start.current)
    ensures Progress(capacity, now, start, items, touched, SubmitAll(capacity, now, start, items))
  {
    if items == [] {
      touched := OpenBatch(start.batches, start.current);
      assert start.batches == start.batches[..First(start.batches, start.current)] + touched;
      assert Requests(items, start.channels) == [] && Slots(touched) + [] == Slots(touched);
    } else {
      var n := |items| - 1;
      touched := SubmitFills(capacity, now, start, items[..n]);
      touched := OneMoreRequest(capacity, now, start, items[..n], touched, SubmitAll(capacity, now, start, items[..n]), items[n]);
      assert items[..n] + [items[n]] == items;
    }
  }

  // ---------------------------------------------------------------- main results

  /** In every reachable state the whole effect of the critical section of `execute_many`. */
  lemma SubmitFillsBatches<Q, R>(cfg: Config, steps: seq<Step<Q, R>>, items: seq<Q>) returns (touched: seq<Batch<Q>>)
    ensures var s, t := Exec(cfg, steps), Exec(cfg, steps + [Submit(items)]);
            var open := OpenBatch(s.batches, s.current);
            && t == s.(batches := s.batches[..|s.batches| - |open|] + touched,
                       current := StillOpen(t.batches, touched),
                       channels := s.channels + seq(|items|, _ => Waiting),
                       calls := s.calls + [Call(items, |s.channels|, [])])
            && Slots(touched) == Slots(open) + Requests(items, |s.channels|)
            && AllFilled(cfg.Capacity(), s.timer.now, open, touched)
  {
    ExecOk(cfg, steps);
    assert (steps + [Submit(items)])[..|steps|] == steps;
    var s := Exec(cfg, steps);
    touched := SubmitFills(cfg.Capacity(), s.timer.now, Submission(s.batches, s.current, |s.channels|), items);
  }

  /** A submission takes a batch out of `Open`, or creates it dispatched, exactly when it has filled it. */
  lemma DispatchedExactlyWhenFull<Q, R>(cfg: Config, steps: seq<Step<Q, R>>, items: seq<Q>, b: nat)
    requires var s, t := Exec(cfg, steps), Exec(cfg, steps + [Submit(items)]);
             b < |t.batches| && (b < |s.batches| ==> s.batches[b].phase.Open?)
    ensures var t := Exec(cfg, steps + [Submit(items)]);
            && (t.batches[b].phase.Open? || t.batches[b].phase.Queued?)
            && (t.batches[b].phase.Queued? <==> |t.batches[b].items| == cfg.Capacity())
            && (t.batches[b].phase.Open? <==> t.current == Some(b))
  {
    var s, t := Exec(cfg, steps), Exec(cfg, steps + [Submit(items)]);
    ExecOk(cfg, steps);
    var touched := SubmitFillsBatches(cfg, steps, items);
    LastIsOpen(cfg.Capacity(), s.timer.now, s.batches, s.current, touched, b);
  }

  lemma LastIsOpen<Q>(capacity: nat, now: nat, batches: seq<Batch<Q>>, current: Option<nat>, touched: seq<Batch<Q>>, b: nat)
    requires BatchesOk(capacity, batches, current) && AllFilled(capacity, now, OpenBatch(batches, current), touched)
    requires var after := batches[..|batches| - |OpenBatch(batches, current)|] + touched;
             b < |after| && (b < |batches| ==> batches[b].phase.Open?)
    ensures var after := batches[..|batches| - |OpenBatch(batches, current)|] + touched;
            && after[b].phase == (if |after[b].items| == capacity then Queued else Open)
            && (after[b].phase.Open? <==> StillOpen(after, touched) == Some(b))
  {
    var open := OpenBatch(batches, current);
    var i := b - (|batches| - |open|);
    assert Filled(capacity, now, open, touched, i);
  }

  lemma SlotsOfTwo<Q>(batches: seq<Batch<Q>>)
    requires |batches| >= 2
    ensures |Slots(batches)| >= |batches[0].items| + |batches[|batches| - 1].items|
  {
    OffsetsIncrease(batches, 0, |batches| - 1);
  }

  /** Requests that fit into the open batch all land in that one batch; no other batch is touched or
      created. */
  lemma RequestsThatFitShareABatch<Q, R>(cfg: Config, steps: seq<Step<Q, R>>, items: seq<Q>)
    requires var s := Exec(cfg, steps);
             items != [] && |Slots(OpenBatch(s.batches, s.current))| + |items| <= cfg.Capacity()
    ensures var s, t := Exec(cfg, steps), Exec(cfg, steps + [Submit(items)]);
            var b := if s.current.Some? then s.current.value else |s.batches|;
            && |t.batches| == b + 1 && b <= |s.batches| && t.batches[..b] == s.batches[..b]
            && t.batches[b].items == Slots(OpenBatch(s.batches, s.current)) + Requests(items, |s.channels|)
  {
    var s, t := Exec(cfg, steps), Exec(cfg, steps + [Submit(items)]);
    ExecOk(cfg, steps);
    var touched := SubmitFillsBatches(cfg, steps, items);
    var open := OpenBatch(s.batches, s.current);
    if |touched| >= 2 {
      assert Filled(cfg.Capacity(), s.timer.now, open, touched, 0);
      assert Filled(cfg.Capacity(), s.timer.now, open, touched, |touched| - 1);
      SlotsOfTwo(touched);
    }
    assert touched == [touched[0]] && [touched[0]][..0] == [];
  }
}
