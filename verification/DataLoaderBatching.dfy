/** How `load_many` spreads its keys over batches. */
module DataLoaderBatching {
  // The keys of a call are cut into consecutive chunks.  The first chunk joins the batch that is
  // open, every other chunk opens a batch of its own, and a chunk ends exactly where its batch is
  // full.  The cuts are determined by the keys and by what the open batch holds.

  import opened Wrappers
  import opened BatchTimer
  import opened DataLoader

  /** The number of the batch that takes the first key. */
  function First<K, V>(batches: seq<Batch<K, V>>, current: Option<nat>): nat {
    if current.Some? then current.value else |batches|
  }

  /** What chunk `i` finds: the open batch, or a new and empty one. */
  function Receiving<K, V>(batches: seq<Batch<K, V>>, current: Option<nat>, now: nat, i: nat): Batch<K, V> {
    if i == 0 && current.Some? && current.value < |batches| then batches[current.value]
    else Batch({}, now, Open, None, false)
  }

  /** Added to `held`, the keys leave the batch below its capacity until the last of them is in. */
  ghost predicate Fits<K>(capacity: nat, held: set<K>, keys: seq<K>) {
    forall j :: 0 <= j < |keys| ==> |held + Elements(keys[..j])| < capacity
  }

  /** The chunk `keys` went into batch `b`, which is dispatched exactly if that filled it. */
  ghost predicate Chunk<K, V>(
    capacity: nat, before: Batch<K, V>, keys: seq<K>, waiter: Waiting<K>, b: nat, after: Batch<K, V>)
  {
    && keys != [] && Fits(capacity, before.items, keys)
    && waiter == Waiting(Elements(keys), b)
    && after.items == before.items + Elements(keys)
    && after.createdAt == before.createdAt && after.cell.None? && !after.cancelled
    && |after.items| <= capacity && after.phase == if |after.items| == capacity then Queued else Open
  }

  /** The chunks one after the other. */
  function Concat<K>(chunks: seq<seq<K>>): seq<K> {
    if chunks == [] then [] else Concat(chunks[..|chunks| - 1]) + chunks[|chunks| - 1]
  }

  /** Chunk `i` went to its waiter and to batch `first + i`; only the last batch may still be open. */
  ghost predicate Placed<K, V>(
    capacity: nat, before: Batch<K, V>, first: nat, chunks: seq<seq<K>>, waiters: seq<Waiting<K>>,
    touched: seq<Batch<K, V>>, i: nat)
    requires i < |chunks| == |waiters| == |touched|
  {
    && Chunk(capacity, before, chunks[i], waiters[i], first + i, touched[i])
    && (i < |chunks| - 1 ==> touched[i].phase.Queued?)
  }

  /** The waiters and the batches from `first` on after a submission at `now`, chunk by chunk. */
  ghost predicate Spread<K, V>(
    capacity: nat, now: nat, batches: seq<Batch<K, V>>, current: Option<nat>, chunks: seq<seq<K>>,
    waiters: seq<Waiting<K>>, touched: seq<Batch<K, V>>)
  {
    && |chunks| == |waiters| == |touched|
    && forall i :: 0 <= i < |chunks| ==>
         Placed(capacity, Receiving(batches, current, now, i), First(batches, current), chunks, waiters, touched, i)
  }

  /** The batches and the open batch after a submission. */
  ghost predicate After<K, V>(
    batches: seq<Batch<K, V>>, current: Option<nat>, touched: seq<Batch<K, V>>, after: seq<Batch<K, V>>, open: Option<nat>)
  {
    && First(batches, current) <= |batches|
    && if touched == [] then after == batches && open == current
       else
         && after == batches[..First(batches, current)] + touched
         && open == if touched[|touched| - 1].phase.Queued? then None else Some(|after| - 1)
  }

  lemma ChunkStarts<K, V>(capacity: nat, before: Batch<K, V>, key: K, b: nat)
    requires before.phase.Open? && |before.items| < capacity && before.cell.None? && !before.cancelled
    ensures Chunk(capacity, before, [key], Waiting({key}, b), b, Grow(capacity, before, key))
  {
    assert Elements([key]) == {key} && Elements([key][..0]) == {};
    assert before.items + {} == before.items;
    GrowsByOne(before.items, key);
  }

  lemma GrowsByOne<K>(held: set<K>, key: K)
    ensures |held + {key}| <= |held| + 1
  {
    if key in held {
      assert held + {key} == held;
    }
  }

  lemma ChunkContinues<K, V>(
    capacity: nat, before: Batch<K, V>, keys: seq<K>, waiter: Waiting<K>, b: nat, after: Batch<K, V>, key: K)
    requires Chunk(capacity, before, keys, waiter, b, after) && after.phase.Open? && |after.items| < capacity
    ensures Chunk(capacity, before, keys + [key], waiter.(keys := waiter.keys + {key}), b, Grow(capacity, after, key))
  {
    var more := keys + [key];
    assert Elements(more) == Elements(keys) + {key};
    assert after.items + {key} == before.items + Elements(more);
    GrowsByOne(after.items, key);
    forall j | 0 <= j < |more| ensures |before.items + Elements(more[..j])| < capacity {
      if j < |keys| {
        assert more[..j] == keys[..j];
      } else {
        assert more[..j] == keys;
      }
    }
  }

  lemma ConcatStarts<K>(chunks: seq<seq<K>>, key: K)
    ensures Concat(chunks + [[key]]) == Concat(chunks) + [key]
  {
    assert (chunks + [[key]])[..|chunks|] == chunks;
  }

  lemma ConcatContinues<K>(chunks: seq<seq<K>>, key: K)
    requires chunks != []
    ensures var n := |chunks| - 1; Concat(chunks[n := chunks[n] + [key]]) == Concat(chunks) + [key]
  {
    var n := |chunks| - 1;
    assert chunks[n := chunks[n] + [key]][..n] == chunks[..n];
    assert Concat(chunks[..n]) + (chunks[n] + [key]) == Concat(chunks) + [key];
  }

  /** A chunk that is neither new nor the last stays as it is. */
  lemma StaysPlaced<K, V>(
    capacity: nat, before: Batch<K, V>, first: nat, chunks: seq<seq<K>>, waiters: seq<Waiting<K>>, touched: seq<Batch<K, V>>,
    chunks': seq<seq<K>>, waiters': seq<Waiting<K>>, touched': seq<Batch<K, V>>, i: nat)
    requires i < |chunks| == |waiters| == |touched| <= |chunks'| == |waiters'| == |touched'|
    requires chunks'[i] == chunks[i] && waiters'[i] == waiters[i] && touched'[i] == touched[i]
    requires Placed(capacity, before, first, chunks, waiters, touched, i) && (i == |chunks| - 1 ==> touched[i].phase.Queued?)
    ensures Placed(capacity, before, first, chunks', waiters', touched', i)
  {
  }

  /** The next key opens a chunk. */
  lemma SpreadStarts<K, V>(
    capacity: nat, now: nat, batches: seq<Batch<K, V>>, current: Option<nat>, chunks: seq<seq<K>>,
    waiters: seq<Waiting<K>>, touched: seq<Batch<K, V>>, key: K)
    requires Spread(capacity, now, batches, current, chunks, waiters, touched)
    requires capacity > 0 && BatchesOk(capacity, batches, current)
    requires touched != [] ==> touched[|touched| - 1].phase.Queued?
    ensures Spread(capacity, now, batches, current, chunks + [[key]],
                   waiters + [Waiting({key}, First(batches, current) + |chunks|)],
                   touched + [Grow(capacity, Receiving(batches, current, now, |chunks|), key)])
  {
    var n, first := |chunks|, First(batches, current);
    var chunks', waiters' := chunks + [[key]], waiters + [Waiting({key}, first + n)];
    var touched' := touched + [Grow(capacity, Receiving(batches, current, now, n), key)];
    ChunkStarts(capacity, Receiving(batches, current, now, n), key, first + n);
    forall i | 0 <= i < n
      ensures Placed(capacity, Receiving(batches, current, now, i), first, chunks', waiters', touched', i)
    {
      StaysPlaced(capacity, Receiving(batches, current, now, i), first, chunks, waiters, touched, chunks', waiters', touched', i);
    }
  }

  /** The next key continues the last chunk. */
  lemma SpreadContinues<K, V>(
    capacity: nat, now: nat, batches: seq<Batch<K, V>>, current: Option<nat>, chunks: seq<seq<K>>,
    waiters: seq<Waiting<K>>, touched: seq<Batch<K, V>>, key: K)
    requires Spread(capacity, now, batches, current, chunks, waiters, touched)
    requires touched != [] && touched[|touched| - 1].phase.Open?
    ensures var n := |chunks| - 1;
            Spread(capacity, now, batches, current, chunks[n := chunks[n] + [key]],
                   waiters[n := waiters[n].(keys := waiters[n].keys + {key})],
                   touched[n := Grow(capacity, touched[n], key)])
  {
    var n, first := |chunks| - 1, First(batches, current);
    var chunks', waiters' := chunks[n := chunks[n] + [key]], waiters[n := waiters[n].(keys := waiters[n].keys + {key})];
    var touched' := touched[n := Grow(capacity, touched[n], key)];
    assert Placed(capacity, Receiving(batches, current, now, n), first, chunks', waiters', touched', n) by {
      assert Placed(capacity, Receiving(batches, current, now, n), first, chunks, waiters, touched, n);
      ChunkContinues(capacity, Receiving(batches, current, now, n), chunks[n], waiters[n], first + n, touched[n], key);
    }
    forall i | 0 <= i < n
      ensures Placed(capacity, Receiving(batches, current, now, i), first, chunks', waiters', touched', i)
    {
      StaysPlaced(capacity, Receiving(batches, current, now, i), first, chunks, waiters, touched, chunks', waiters', touched', i);
    }
  }

  /** A submission in progress: its chunks so far. */
  ghost predicate Progress<K, V>(
    capacity: nat, now: nat, batches: seq<Batch<K, V>>, current: Option<nat>, chunks: seq<seq<K>>,
    touched: seq<Batch<K, V>>, u: Submission<K, V>)
  {
    && Spread(capacity, now, batches, current, chunks, u.waiters, touched)
    && After(batches, current, touched, u.batches, u.current)
    && (u.newBatch <==> chunks == [])
  }

  lemma OneMoreKey<K, V>(
    capacity: nat, now: nat, batches: seq<Batch<K, V>>, current: Option<nat>, chunks: seq<seq<K>>,
    touched: seq<Batch<K, V>>, u: Submission<K, V>, key: K)
    returns (more: seq<seq<K>>, grown: seq<Batch<K, V>>)
    requires capacity > 0 && BatchesOk(capacity, batches, current) && u.WellFormed()
    requires Progress(capacity, now, batches, current, chunks, touched, u)
    ensures Progress(capacity, now, batches, current, more, grown, SubmitOne(capacity, now, u, key))
    ensures Concat(more) == Concat(chunks) + [key]
  {
    var n := |chunks| - 1;
    if chunks == [] || u.current.None? {
      more, grown := chunks + [[key]], touched + [Grow(capacity, Receiving(batches, current, now, |chunks|), key)];
      SpreadStarts(capacity, now, batches, current, chunks, u.waiters, touched, key);
      ConcatStarts(chunks, key);
      StartedAfter(capacity, now, batches, current, chunks, touched, u, key);
    } else {
      assert Placed(capacity, Receiving(batches, current, now, n), First(batches, current), chunks, u.waiters, touched, n);
      more, grown := chunks[n := chunks[n] + [key]], touched[n := Grow(capacity, touched[n], key)];
      SpreadContinues(capacity, now, batches, current, chunks, u.waiters, touched, key);
      ConcatContinues(chunks, key);
      ContinuedAfter(capacity, now, batches, current, chunks, touched, u, key);
    }
  }

  lemma StartedAfter<K, V>(
    capacity: nat, now: nat, batches: seq<Batch<K, V>>, current: Option<nat>, chunks: seq<seq<K>>,
    touched: seq<Batch<K, V>>, u: Submission<K, V>, key: K)
    requires BatchesOk(capacity, batches, current) && u.WellFormed()
    requires Progress(capacity, now, batches, current, chunks, touched, u) && (chunks == [] || u.current.None?)
    ensures var r, b := SubmitOne(capacity, now, u, key), First(batches, current) + |chunks|;
            && r.waiters == u.waiters + [Waiting({key}, b)]
            && After(batches, current, touched + [Grow(capacity, Receiving(batches, current, now, |chunks|), key)], r.batches, r.current)
  {
  }

  lemma ContinuedAfter<K, V>(
    capacity: nat, now: nat, batches: seq<Batch<K, V>>, current: Option<nat>, chunks: seq<seq<K>>,
    touched: seq<Batch<K, V>>, u: Submission<K, V>, key: K)
    requires u.WellFormed()
    requires Progress(capacity, now, batches, current, chunks, touched, u) && chunks != [] && u.current.Some?
    ensures var r, n := SubmitOne(capacity, now, u, key), |chunks| - 1;
            && r.waiters == u.waiters[n := u.waiters[n].(keys := u.waiters[n].keys + {key})]
            && After(batches, current, touched[n := Grow(capacity, touched[n], key)], r.batches, r.current)
  {
  }

  lemma {:induction false} SubmitSpreads<K, V>(
    capacity: nat, now: nat, batches: seq<Batch<K, V>>, current: Option<nat>, keys: seq<K>)
    returns (chunks: seq<seq<K>>, touched: seq<Batch<K, V>>)
    requires capacity > 0 && BatchesOk(capacity, batches, current)
    ensures Concat(chunks) == keys
    ensures Progress(capacity, now, batches, current, chunks, touched,
                     SubmitAll(capacity, now, Submission(batches, current, [], true), keys))
  {
    chunks, touched := [], [];
    if keys != [] {
      var n := |keys| - 1;
      chunks, touched := SubmitSpreads(capacity, now, batches, current, keys[..n]);
      assert keys == keys[..n] + [keys[n]];
      chunks, touched := OneMoreKey(capacity, now, batches, current, chunks, touched,
                                    SubmitAll(capacity, now, Submission(batches, current, [], true), keys[..n]), keys[n]);
    }
  }

  // ---------------------------------------------------------------- main results

  /** The keys that the open batch holds. */
  ghost function Held<K, V>(s: State<K, V>): set<K> {
    if s.current.Some? && s.current.value < |s.batches| then s.batches[s.current.value].items else {}
  }

  /** In every reachable state the whole effect of the critical section: the keys are cut into chunks,
      one for each waiter; the first joins the open batch, the others open batches in a row; a batch
      is dispatched exactly when its chunk fills it, and all but the last are. */
  lemma SubmitFillsBatches<K, V>(cfg: Config, steps: seq<Step<K, V>>, keys: seq<K>)
    returns (chunks: seq<seq<K>>, touched: seq<Batch<K, V>>)
    ensures Concat(chunks) == keys
    ensures var s, t := Exec(cfg, steps), Exec(cfg, steps + [Submit(keys)]);
            && |t.loads| == |s.loads| + 1
            && t == s.(batches := t.batches, current := t.current, loads := s.loads + [t.loads[|s.loads|]])
            && t.loads[|s.loads|] == Load(keys, t.loads[|s.loads|].waiters, 0, map[], Pending)
            && Spread(cfg.Capacity(), s.timer.now, s.batches, s.current, chunks, t.loads[|s.loads|].waiters, touched)
            && After(s.batches, s.current, touched, t.batches, t.current)
  {
    ExecOk(cfg, steps);
    assert (steps + [Submit(keys)])[..|steps|] == steps;
    var s := Exec(cfg, steps);
    chunks, touched := SubmitSpreads(cfg.Capacity(), s.timer.now, s.batches, s.current, keys);
  }

  /** A submission takes a batch out of `Open`, or creates it dispatched, exactly when it has filled it. */
  lemma DispatchedExactlyWhenFull<K, V>(cfg: Config, steps: seq<Step<K, V>>, keys: seq<K>, b: nat)
    requires var s, t := Exec(cfg, steps), Exec(cfg, steps + [Submit(keys)]);
             b < |t.batches| && (b < |s.batches| ==> s.batches[b].phase.Open?)
    ensures var t := Exec(cfg, steps + [Submit(keys)]);
            && (t.batches[b].phase.Open? || t.batches[b].phase.Queued?)
            && (t.batches[b].phase.Queued? <==> |t.batches[b].items| == cfg.Capacity())
            && (t.batches[b].phase.Open? <==> t.current == Some(b))
  {
    var s, t := Exec(cfg, steps), Exec(cfg, steps + [Submit(keys)]);
    var chunks, touched := SubmitFillsBatches(cfg, steps, keys);
    ExecOk(cfg, steps);
    TouchedAreFilled(cfg.Capacity(), s.timer.now, s.batches, s.current, chunks, t.loads[|s.loads|].waiters, touched);
    LastIsOpen(cfg.Capacity(), s.batches, s.current, touched, t.batches, t.current, b);
  }

  /** Every batch that got keys is dispatched exactly if it is full, and all but the last are. */
  ghost predicate AllFilled<K, V>(capacity: nat, touched: seq<Batch<K, V>>) {
    forall i :: 0 <= i < |touched| ==>
      && touched[i].phase == (if |touched[i].items| == capacity then Queued else Open)
      && (i < |touched| - 1 ==> touched[i].phase.Queued?)
  }

  lemma TouchedAreFilled<K, V>(
    capacity: nat, now: nat, batches: seq<Batch<K, V>>, current: Option<nat>, chunks: seq<seq<K>>,
    waiters: seq<Waiting<K>>, touched: seq<Batch<K, V>>)
    requires Spread(capacity, now, batches, current, chunks, waiters, touched)
    ensures AllFilled(capacity, touched)
  {
    forall i | 0 <= i < |touched|
      ensures touched[i].phase == (if |touched[i].items| == capacity then Queued else Open)
      ensures i < |touched| - 1 ==> touched[i].phase.Queued?
    {
      assert Placed(capacity, Receiving(batches, current, now, i), First(batches, current), chunks, waiters, touched, i);
    }
  }

  lemma LastIsOpen<K, V>(
    capacity: nat, batches: seq<Batch<K, V>>, current: Option<nat>, touched: seq<Batch<K, V>>,
    after: seq<Batch<K, V>>, open: Option<nat>, b: nat)
    requires BatchesOk(capacity, batches, current) && AllFilled(capacity, touched) && After(batches, current, touched, after, open)
    requires b < |after| && (b < |batches| ==> batches[b].phase.Open?)
    ensures after[b].phase == if |after[b].items| == capacity then Queued else Open
    ensures after[b].phase.Open? <==> open == Some(b)
  {
    if touched == [] {
      assert BatchOk(capacity, batches[b]);
    } else {
      assert after[b] == touched[b - First(batches, current)];
    }
  }

  lemma {:induction false} FirstChunk<K>(chunks: seq<seq<K>>)
    requires chunks != [] && forall i :: 0 <= i < |chunks| ==> chunks[i] != []
    ensures chunks[0] <= Concat(chunks)
    ensures |chunks| == 1 <==> chunks[0] == Concat(chunks)
  {
    var n := |chunks| - 1;
    if n == 0 {
      assert chunks[..0] == [] && Concat(chunks) == [] + chunks[0];
    } else {
      FirstChunk(chunks[..n]);
      assert |Concat(chunks)| > |chunks[0]|;
    }
  }

  lemma ChunksAreNotEmpty<K, V>(
    capacity: nat, now: nat, batches: seq<Batch<K, V>>, current: Option<nat>, chunks: seq<seq<K>>,
    waiters: seq<Waiting<K>>, touched: seq<Batch<K, V>>)
    requires Spread(capacity, now, batches, current, chunks, waiters, touched)
    ensures forall i :: 0 <= i < |chunks| ==> chunks[i] != []
  {
    forall i | 0 <= i < |chunks| ensures chunks[i] != [] {
      assert Placed(capacity, Receiving(batches, current, now, i), First(batches, current), chunks, waiters, touched, i);
    }
  }

  /** Keys that fit are one chunk. */
  lemma OneChunk<K, V>(
    capacity: nat, now: nat, batches: seq<Batch<K, V>>, current: Option<nat>, chunks: seq<seq<K>>,
    waiters: seq<Waiting<K>>, touched: seq<Batch<K, V>>, keys: seq<K>)
    requires Spread(capacity, now, batches, current, chunks, waiters, touched)
    requires keys != [] && Concat(chunks) == keys && Fits(capacity, Receiving(batches, current, now, 0).items, keys)
    ensures chunks == [keys]
  {
    ChunksAreNotEmpty(capacity, now, batches, current, chunks, waiters, touched);
    FirstChunk(chunks);
    assert Placed(capacity, Receiving(batches, current, now, 0), First(batches, current), chunks, waiters, touched, 0);
    assert keys[..|chunks[0]|] == chunks[0];
  }

  /** Keys that fit into the open batch all land in that one batch, behind one waiter; no other batch
      is touched or created. */
  lemma KeysThatFitShareABatch<K, V>(cfg: Config, steps: seq<Step<K, V>>, keys: seq<K>)
    requires keys != [] && Fits(cfg.Capacity(), Held(Exec(cfg, steps)), keys)
    ensures var s, t := Exec(cfg, steps), Exec(cfg, steps + [Submit(keys)]);
            var b := if s.current.Some? then s.current.value else |s.batches|;
            && |t.loads| == |s.loads| + 1 && t.loads[|s.loads|].waiters == [Waiting(Elements(keys), b)]
            && |t.batches| == b + 1 && t.batches[..b] == s.batches[..b]
            && t.batches[b].items == Held(s) + Elements(keys)
            && t.batches[b].createdAt == (if s.current.Some? then s.batches[b].createdAt else s.timer.now)
  {
    var s, t := Exec(cfg, steps), Exec(cfg, steps + [Submit(keys)]);
    ExecOk(cfg, steps);
    var chunks, touched := SubmitFillsBatches(cfg, steps, keys);
    OneChunkLands(cfg.Capacity(), s.timer.now, s.batches, s.current, chunks, t.loads[|s.loads|].waiters, touched, keys);
  }

  lemma OneChunkLands<K, V>(
    capacity: nat, now: nat, batches: seq<Batch<K, V>>, current: Option<nat>, chunks: seq<seq<K>>,
    waiters: seq<Waiting<K>>, touched: seq<Batch<K, V>>, keys: seq<K>)
    requires Spread(capacity, now, batches, current, chunks, waiters, touched)
    requires keys != [] && Concat(chunks) == keys && Fits(capacity, Receiving(batches, current, now, 0).items, keys)
    ensures waiters == [Waiting(Elements(keys), First(batches, current))] && |touched| == 1
    ensures var before := Receiving(batches, current, now, 0);
            touched[0].items == before.items + Elements(keys) && touched[0].createdAt == before.createdAt
  {
    OneChunk(capacity, now, batches, current, chunks, waiters, touched, keys);
    assert Placed(capacity, Receiving(batches, current, now, 0), First(batches, current), chunks, waiters, touched, 0);
  }
}
