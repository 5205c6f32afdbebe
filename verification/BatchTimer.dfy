/** What batch.rs and dataloader.rs share word for word: the settings and the timer loop
    `batch_loop`.  Instants and durations are natural numbers of clock ticks. */
module BatchTimer {
  import opened Wrappers

  /** The settings; `slack` bounds how late the timer may wake. */
  datatype Config = Config(batchSize: nat, concurrency: nat, delay: nat, slack: nat) {
    /** The larger of one and the batch size. */
    function Capacity(): (r: nat)
      ensures r >= 1 && r >= batchSize && (r == 1 || r == batchSize)
    {
      if batchSize < 1 then 1 else batchSize
    }

    /** The larger of one and the concurrency. */
    function Permits(): (r: nat)
      ensures r >= 1 && r >= concurrency && (r == 1 || r == concurrency)
    {
      if concurrency < 1 then 1 else concurrency
    }
  }

  /** The clock and the instant at which the current sleep of the timer ends. */
  datatype Timer = Timer(now: nat, wakeAt: nat)

  /** `Duration::saturating_sub`. */
  function SaturatingSub(a: nat, b: nat): nat {
    if a < b then 0 else a - b
  }

  /** The sleep that follows a wake-up at `now` and whether the open batch is taken. */
  function Decide(delay: nat, now: nat, openSince: Option<nat>): (r: (nat, bool))
    ensures r.1 ==> openSince.Some?
  {
    if openSince.None? then (delay, false)
    else
      var remaining := SaturatingSub(delay, SaturatingSub(now, openSince.value));
      if remaining == 0 then (delay, true) else (remaining, false)
  }

  function Started(delay: nat): Timer {
    Timer(0, delay)
  }

  /** The timer has woken and holds the lock; it decides and goes back to sleep. */
  function Wake(t: Timer, delay: nat, openSince: Option<nat>): Timer {
    t.(wakeAt := t.now + Decide(delay, t.now, openSince).0)
  }

  /** Time may pass, but no wake-up is later than `slack` ticks (the scheduling delay plus
      the wait for the lock). */
  predicate MayPass(t: Timer, slack: nat, to: nat) {
    t.now <= to <= t.wakeAt + slack
  }

  /** The inductive invariant: the pending wake-up is never later than the deadline of the
      batch that is open now, nor than the deadline of a batch opened at this instant. */
  ghost predicate OnTime(t: Timer, delay: nat, slack: nat, openSince: Option<nat>) {
    && t.now <= t.wakeAt + slack
    && t.wakeAt <= t.now + delay
    && (openSince.Some? ==> openSince.value <= t.now && t.wakeAt <= openSince.value + delay)
  }

  /** A wake-up keeps the invariant, takes a batch exactly when it is at least `delay` old,
      and then sleeps precisely until that batch is due, or for `delay` if none is left open. */
  lemma WakeOnTime(t: Timer, delay: nat, slack: nat, openSince: Option<nat>)
    requires OnTime(t, delay, slack, openSince) && t.wakeAt <= t.now
    ensures var taken := Decide(delay, t.now, openSince).1;
            && OnTime(Wake(t, delay, openSince), delay, slack, if taken then None else openSince)
            && (openSince.Some? ==> (taken <==> t.now - openSince.value >= delay))
            && Wake(t, delay, openSince).wakeAt == (if openSince.Some? && !taken then openSince.value else t.now) + delay
  {
  }
}
