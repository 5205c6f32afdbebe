/** `find_permutations` of dev-tools/xtask/src/utils.rs. */
module Permutations {
  // The enumeration of the feature sets worth testing is a depth-first search that records every
  // set it meets and prunes skipped ones.

  import opened Wrappers

  // ---------------------------------------------------------------- sets of features

  /** `viable_features`: each feature with its flattened dependencies. */
  type Viable = map<string, set<string>>

  predicate Skipped(skip: set<set<string>>, s: set<string>) {
    exists k :: k in skip && k <= s
  }

  /** The viable features that `s` has switched on: its members and their dependencies. */
  function Flattened(viable: Viable, s: set<string>): set<string> {
    set d | d in viable && exists f :: f in s && f in viable && (d == f || d in viable[f])
  }

  function Successor(viable: Viable, s: set<string>, f: string): set<string>
    requires f in viable
  {
    s + {f} - viable[f]
  }

  /** No member is a dependency of another. */
  ghost predicate Independent(viable: Viable, s: set<string>) {
    s <= viable.Keys && forall a, b :: a in s && b in s && a != b ==> b !in viable[a]
  }

  /** What the enumeration is for: the independent sets that contain no skip set. */
  ghost function Wanted(viable: Viable, skip: set<set<string>>): set<set<string>> {
    set s | s <= viable.Keys && Independent(viable, s) && forall k :: k in skip ==> !(k <= s)
  }

  ghost predicate TransitivelyClosed(viable: Viable) {
    forall f, d :: f in viable && d in viable[f] && d in viable ==> viable[d] <= viable[f]
  }

  ghost predicate Acyclic(viable: Viable) {
    forall f :: f in viable ==> f !in viable[f]
  }

  /** Independent, and free of features that depend on themselves. */
  ghost predicate Sound(viable: Viable, s: set<string>) {
    Independent(viable, s) && forall f :: f in s ==> f !in viable[f]
  }

  lemma SubsetSize<T>(a: set<T>, b: set<T>)
    requires a <= b
    ensures |a| <= |b|
    ensures |a| == |b| ==> a == b
  {
    assert b == a + (b - a);
  }

  lemma FlattenedGrows(viable: Viable, a: set<string>, b: set<string>)
    requires a <= b
    ensures Flattened(viable, a) <= Flattened(viable, b)
    ensures |Flattened(viable, a)| <= |Flattened(viable, b)|
  {
    SubsetSize(Flattened(viable, a), Flattened(viable, b));
  }

  lemma SuccessorSound(viable: Viable, s: set<string>, f: string)
    requires Sound(viable, s) && f in viable && f !in Flattened(viable, s)
    ensures Sound(viable, Successor(viable, s, f))
    ensures |Successor(viable, s, f)| <= |s| + 1
  {
    var t := Successor(viable, s, f);
    forall a, b | a in t && b in t && a != b ensures b !in viable[a] {
      if b == f && a in s {
        assert f !in Flattened(viable, s);
      }
    }
    SubsetSize(t, s + {f});
  }

  /** Adding a feature switches on at least that one, and removing its dependencies switches
      nothing off. */
  lemma SuccessorFlattened(viable: Viable, s: set<string>, f: string)
    requires TransitivelyClosed(viable) && Acyclic(viable) && s <= viable.Keys
    requires f in viable && f !in Flattened(viable, s)
    ensures Flattened(viable, Successor(viable, s, f)) == Flattened(viable, s + {f})
    ensures Flattened(viable, s) < Flattened(viable, s + {f})
    ensures |Flattened(viable, s)| < |Flattened(viable, s + {f})|
  {
    var t := Successor(viable, s, f);
    forall d | d in Flattened(viable, s + {f}) ensures d in Flattened(viable, t) {
      var x :| x in s + {f} && x in viable && (d == x || d in viable[x]);
      if x !in t {
        assert x in viable[f] && f in t;
      }
    }
    assert f in Flattened(viable, s + {f});
    FlattenedGrows(viable, s, s + {f});
    SubsetSize(Flattened(viable, s), Flattened(viable, s + {f}));
  }

  // ---------------------------------------------------------------- the search

  /** An entry of the stack. */
  datatype Entry = Entry(start: set<string>, rem: nat)

  datatype Search = Search(found: set<set<string>>, stack: seq<Entry>)

  /** What one turn of the inner loop pushes. */
  function PushOne(viable: Viable, skip: set<set<string>>, found: set<set<string>>, e: Entry, f: string): seq<Entry> {
    if f !in viable || f in Flattened(viable, e.start) || e.rem == 0 then []
    else
      var next := Successor(viable, e.start, f);
      if next in found || next in skip then [] else [Entry(next, e.rem - 1)]
  }

  /** The inner loop; `order` lists the keys of the map in the order of their iteration. */
  function PushAll(
    viable: Viable, order: seq<string>, skip: set<set<string>>, found: set<set<string>>, e: Entry): seq<Entry>
  {
    if order == [] then []
    else
      var n := |order| - 1;
      PushAll(viable, order[..n], skip, found, e) + PushOne(viable, skip, found, e, order[n])
  }

  /** One turn of the outer loop. */
  function Step(viable: Viable, order: seq<string>, skip: set<set<string>>, s: Search): Search
    requires s.stack != []
  {
    var n := |s.stack| - 1;
    var e, rest := s.stack[n], s.stack[..n];
    if Skipped(skip, e.start) || e.start in s.found then Search(s.found, rest)
    else
      var found := s.found + {e.start};
      Search(found, rest + PushAll(viable, order, skip, found, e))
  }

  function Iterate(viable: Viable, order: seq<string>, skip: set<set<string>>, s: Search, n: nat): Search
    decreases n, s
  {
    if n == 0 || s.stack == [] then s else Iterate(viable, order, skip, Step(viable, order, skip, s), n - 1)
  }

  /** The search from `s` ends with `result`. */
  ghost predicate Yields(viable: Viable, order: seq<string>, skip: set<set<string>>, s: Search, result: set<set<string>>) {
    exists n: nat :: Iterate(viable, order, skip, s, n) == Search(result, [])
  }

  lemma YieldsStep(viable: Viable, order: seq<string>, skip: set<set<string>>, s: Search, result: set<set<string>>)
    requires s.stack != []
    ensures Yields(viable, order, skip, Step(viable, order, skip, s), result) <==> Yields(viable, order, skip, s, result)
  {
    var t := Step(viable, order, skip, s);
    if n: nat :| Iterate(viable, order, skip, t, n) == Search(result, []) {
      assert Iterate(viable, order, skip, s, n + 1) == Search(result, []);
    }
    if n: nat :| Iterate(viable, order, skip, s, n) == Search(result, []) {
      assert n > 0 && Iterate(viable, order, skip, t, n - 1) == Search(result, []);
    }
  }

  lemma YieldsEnd(viable: Viable, order: seq<string>, skip: set<set<string>>, s: Search, result: set<set<string>>)
    requires s.stack == []
    ensures Yields(viable, order, skip, s, result) <==> result == s.found
  {
    assert Iterate(viable, order, skip, s, 0) == s;
  }

  /** The search from `s` passes through `t`. */
  ghost predicate Leads(viable: Viable, order: seq<string>, skip: set<set<string>>, s: Search, t: Search) {
    forall result :: Yields(viable, order, skip, t, result) ==> Yields(viable, order, skip, s, result)
  }

  lemma YieldsKept(viable: Viable, order: seq<string>, skip: set<set<string>>, init: Search, s: Search)
    requires s.stack != [] && Leads(viable, order, skip, init, s)
    ensures Leads(viable, order, skip, init, Step(viable, order, skip, s))
  {
    forall result | Yields(viable, order, skip, Step(viable, order, skip, s), result)
      ensures Yields(viable, order, skip, init, result)
    {
      YieldsStep(viable, order, skip, s, result);
    }
  }

  /** `order` lists the viable features, each once. */
  ghost predicate IsOrder(viable: Viable, order: seq<string>) {
    |order| == |viable| && forall f :: f in viable <==> f in order
  }

  // ---------------------------------------------------------------- what is pushed

  /** `x` is the entry for `e` with one more feature. */
  ghost predicate Pushed(viable: Viable, e: Entry, x: Entry) {
    x.rem + 1 == e.rem && exists f :: f in viable.Keys - Flattened(viable, e.start) && x.start == Successor(viable, e.start, f)
  }

  ghost predicate OnStack(stack: seq<Entry>, s: set<string>) {
    exists e :: e in stack && e.start == s
  }

  /** `s` has been dealt with, or is waiting on the stack, or is excluded. */
  ghost predicate Covered(found: set<set<string>>, stack: seq<Entry>, skip: set<set<string>>, s: set<string>) {
    s in found || OnStack(stack, s) || Skipped(skip, s)
  }

  lemma CoveredMore(found: set<set<string>>, stack: seq<Entry>, more: seq<Entry>, skip: set<set<string>>, s: set<string>)
    requires Covered(found, stack, skip, s)
    ensures Covered(found, stack + more, skip, s) && Covered(found, more + stack, skip, s)
  {
    if e :| e in stack && e.start == s {
      assert e in stack + more && e in more + stack;
    }
  }

  lemma {:induction false} PushAllPushes(
    viable: Viable, order: seq<string>, skip: set<set<string>>, found: set<set<string>>, e: Entry, x: Entry)
    requires x in PushAll(viable, order, skip, found, e)
    ensures Pushed(viable, e, x)
  {
    var n := |order| - 1;
    if x in PushAll(viable, order[..n], skip, found, e) {
      PushAllPushes(viable, order[..n], skip, found, e, x);
    }
  }

  lemma {:induction false} PushAllCovers(
    viable: Viable, order: seq<string>, skip: set<set<string>>, found: set<set<string>>, e: Entry, f: string)
    requires f in order && f in viable.Keys - Flattened(viable, e.start) && e.rem > 0
    ensures Covered(found, PushAll(viable, order, skip, found, e), skip, Successor(viable, e.start, f))
  {
    var n := |order| - 1;
    var before, last := PushAll(viable, order[..n], skip, found, e), PushOne(viable, skip, found, e, order[n]);
    if f == order[n] {
      var next := Successor(viable, e.start, f);
      assert next !in found && next !in skip ==> last == [Entry(next, e.rem - 1)];
      assert Covered(found, last, skip, next);
      CoveredMore(found, last, before, skip, next);
    } else {
      PushAllCovers(viable, order[..n], skip, found, e, f);
      CoveredMore(found, before, last, skip, Successor(viable, e.start, f));
    }
  }

  /** Every successor of the sets in `which` is covered. */
  ghost predicate Explored(
    viable: Viable, which: set<set<string>>, found: set<set<string>>, stack: seq<Entry>, skip: set<set<string>>)
  {
    forall s, f :: s in which && f in viable.Keys - Flattened(viable, s) ==>
      Covered(found, stack, skip, Successor(viable, s, f))
  }

  /** The top of the stack is popped and either skipped or recorded. */
  lemma PopExplored(viable: Viable, which: set<set<string>>, before: set<set<string>>, after: set<set<string>>,
                    stack: seq<Entry>, skip: set<set<string>>)
    requires stack != [] && before <= after
    requires Explored(viable, which, before, stack, skip)
    requires var top := stack[|stack| - 1].start; top in after || Skipped(skip, top)
    ensures Explored(viable, which, after, stack[..|stack| - 1], skip)
  {
    var rest := stack[..|stack| - 1];
    assert stack == rest + [stack[|stack| - 1]];
    forall s | Covered(before, stack, skip, s) ensures Covered(after, rest, skip, s) {
    }
  }

  lemma PushExplored(
    viable: Viable, order: seq<string>, which: set<set<string>>, found: set<set<string>>, stack: seq<Entry>, skip: set<set<string>>, e: Entry)
    requires Explored(viable, which, found, stack, skip) && IsOrder(viable, order)
    ensures Explored(viable, which, found, stack + PushAll(viable, order, skip, found, e), skip)
    ensures e.rem > 0 ==> Explored(viable, which + {e.start}, found, stack + PushAll(viable, order, skip, found, e), skip)
  {
    var pushed := PushAll(viable, order, skip, found, e);
    forall s, f | s in which && f in viable.Keys - Flattened(viable, s)
      ensures Covered(found, stack + pushed, skip, Successor(viable, s, f))
    {
      CoveredMore(found, stack, pushed, skip, Successor(viable, s, f));
    }
    forall f | e.rem > 0 && f in viable.Keys - Flattened(viable, e.start)
      ensures Covered(found, stack + pushed, skip, Successor(viable, e.start, f))
    {
      PushAllCovers(viable, order, skip, found, e, f);
      CoveredMore(found, pushed, stack, skip, Successor(viable, e.start, f));
    }
  }

  // ---------------------------------------------------------------- where sets come from

  /** When the map index of the source can panic, and that skipped sets are never recorded. */
  ghost predicate Legal(viable: Viable, skip: set<set<string>>, first: Entry, s: Search) {
    && (forall t :: t in s.found ==> t <= first.start + viable.Keys && !Skipped(skip, t))
    && (forall e :: e in s.stack ==> e.start <= first.start + viable.Keys)
    && ((s.stack == [first] && s.found == {}) || forall e :: e in s.stack ==> e.start <= viable.Keys)
    && (s.found == {} ==> s.stack == [first] || (Skipped(skip, first.start) && s.stack == []))
    && (s.found != {} ==> !Skipped(skip, first.start) && (first.start <= viable.Keys || first.rem == 0))
  }

  /** The next turn does not panic. */
  predicate Indexable(viable: Viable, skip: set<set<string>>, s: Search)
    requires s.stack != []
  {
    var e := s.stack[|s.stack| - 1];
    Skipped(skip, e.start) || e.start in s.found || e.rem == 0 || e.start <= viable.Keys
  }

  lemma StepLegal(viable: Viable, order: seq<string>, skip: set<set<string>>, first: Entry, s: Search)
    requires s.stack != [] && Legal(viable, skip, first, s) && Indexable(viable, skip, s)
    ensures Legal(viable, skip, first, Step(viable, order, skip, s))
  {
    var n := |s.stack| - 1;
    var e, rest := s.stack[n], s.stack[..n];
    assert e in s.stack && forall x :: x in rest ==> x in s.stack;
    var found := s.found + {e.start};
    if !Skipped(skip, e.start) && e.start !in s.found {
      forall x | x in PushAll(viable, order, skip, found, e) ensures x.start <= viable.Keys && e.rem > 0 {
        PushAllPushes(viable, order, skip, found, e, x);
      }
    }
  }

  ghost predicate Bounded(viable: Viable, bound: nat, e: Entry) {
    Sound(viable, e.start) && |e.start| + e.rem <= bound
  }

  /** From a sound start: every set is sound and no larger than the size limit allows. */
  ghost predicate AllSound(viable: Viable, bound: nat, s: Search) {
    && (forall e :: e in s.stack ==> Bounded(viable, bound, e))
    && (forall t :: t in s.found ==> Sound(viable, t) && |t| <= bound)
  }

  lemma PushedBounded(viable: Viable, bound: nat, e: Entry, x: Entry)
    requires Bounded(viable, bound, e) && Pushed(viable, e, x)
    ensures Bounded(viable, bound, x)
  {
    var f :| f in viable.Keys - Flattened(viable, e.start) && x.start == Successor(viable, e.start, f);
    SuccessorSound(viable, e.start, f);
  }

  lemma StepSound(viable: Viable, order: seq<string>, skip: set<set<string>>, bound: nat, s: Search)
    requires s.stack != [] && AllSound(viable, bound, s)
    ensures AllSound(viable, bound, Step(viable, order, skip, s))
  {
    var n := |s.stack| - 1;
    var e, rest := s.stack[n], s.stack[..n];
    assert e in s.stack && forall x :: x in rest ==> x in s.stack;
    assert Bounded(viable, bound, e);
    forall x | x in PushAll(viable, order, skip, s.found + {e.start}, e) ensures Bounded(viable, bound, x) {
      PushAllPushes(viable, order, skip, s.found + {e.start}, e, x);
      PushedBounded(viable, bound, e, x);
    }
  }

  // ---------------------------------------------------------------- the size limit against switched-on features

  /** An entry has used up at most as much of the size limit as it has switched on features. */
  ghost predicate Fuelled(viable: Viable, first: Entry, e: Entry) {
    && e.start <= viable.Keys && Flattened(viable, first.start) <= Flattened(viable, e.start)
    && |Flattened(viable, first.start)| + first.rem <= |Flattened(viable, e.start)| + e.rem
  }

  /** The sets that are certain to be recorded with some of the size limit left. */
  ghost function Roomy(viable: Viable, first: Entry, found: set<set<string>>): set<set<string>> {
    set t | t in found && |Flattened(viable, t)| < |Flattened(viable, first.start)| + first.rem
  }

  ghost predicate Complete(viable: Viable, skip: set<set<string>>, first: Entry, s: Search) {
    && (forall e :: e in s.stack ==> Fuelled(viable, first, e))
    && (forall t :: t in s.found ==> Flattened(viable, first.start) <= Flattened(viable, t))
    && Explored(viable, Roomy(viable, first, s.found), s.found, s.stack, skip)
    && Covered(s.found, s.stack, skip, first.start)
  }

  lemma PushedFuelled(viable: Viable, first: Entry, e: Entry, x: Entry)
    requires TransitivelyClosed(viable) && Acyclic(viable) && Fuelled(viable, first, e) && Pushed(viable, e, x)
    ensures Fuelled(viable, first, x)
  {
    var f :| f in viable.Keys - Flattened(viable, e.start) && x.start == Successor(viable, e.start, f);
    SuccessorFlattened(viable, e.start, f);
  }

  lemma StepComplete(viable: Viable, order: seq<string>, skip: set<set<string>>, first: Entry, s: Search)
    requires TransitivelyClosed(viable) && Acyclic(viable) && IsOrder(viable, order)
    requires s.stack != [] && Complete(viable, skip, first, s)
    ensures Complete(viable, skip, first, Step(viable, order, skip, s))
  {
    var n := |s.stack| - 1;
    var e, rest := s.stack[n], s.stack[..n];
    assert s.stack == rest + [e];
    assert e in s.stack && Fuelled(viable, first, e);
    if Skipped(skip, e.start) || e.start in s.found {
      PopExplored(viable, Roomy(viable, first, s.found), s.found, s.found, s.stack, skip);
    } else {
      RecordComplete(viable, order, skip, first, s);
    }
  }

  lemma RecordComplete(viable: Viable, order: seq<string>, skip: set<set<string>>, first: Entry, s: Search)
    requires TransitivelyClosed(viable) && Acyclic(viable) && IsOrder(viable, order)
    requires s.stack != [] && Complete(viable, skip, first, s)
    ensures var n := |s.stack| - 1;
            var e := s.stack[n];
            var found := s.found + {e.start};
            Complete(viable, skip, first, Search(found, s.stack[..n] + PushAll(viable, order, skip, found, e)))
  {
    var n := |s.stack| - 1;
    var e, rest := s.stack[n], s.stack[..n];
    var found := s.found + {e.start};
    var pushed := PushAll(viable, order, skip, found, e);
    assert s.stack == rest + [e];
    assert e in s.stack && Fuelled(viable, first, e);
    var roomy := Roomy(viable, first, s.found);
    PopExplored(viable, roomy, s.found, found, s.stack, skip);
    PushExplored(viable, order, roomy, found, rest, skip, e);
    assert Roomy(viable, first, found) <= if e.rem > 0 then roomy + {e.start} else roomy;
    forall x | x in pushed ensures Fuelled(viable, first, x) {
      PushAllPushes(viable, order, skip, found, e, x);
      PushedFuelled(viable, first, e, x);
    }
    assert Covered(found, rest, skip, first.start);
    CoveredMore(found, rest, pushed, skip, first.start);
  }

  // ---------------------------------------------------------------- the size limit against the number of sets

  /** Either everything recorded has been explored, or more sets than the size limit have been
      recorded; no dependencies matter here. */
  ghost predicate Counted(viable: Viable, skip: set<set<string>>, first: Entry, s: Search) {
    && (forall e :: e in s.stack ==> e.rem + |s.found| >= first.rem)
    && (|s.found| > first.rem || Explored(viable, s.found, s.found, s.stack, skip))
    && Covered(s.found, s.stack, skip, first.start)
  }

  lemma StepCounted(viable: Viable, order: seq<string>, skip: set<set<string>>, first: Entry, s: Search)
    requires IsOrder(viable, order) && s.stack != [] && Counted(viable, skip, first, s)
    ensures Counted(viable, skip, first, Step(viable, order, skip, s))
  {
    var n := |s.stack| - 1;
    var e, rest := s.stack[n], s.stack[..n];
    assert s.stack == rest + [e];
    assert e in s.stack && forall x :: x in rest ==> x in s.stack;
    if Skipped(skip, e.start) || e.start in s.found {
      if |s.found| <= first.rem {
        PopExplored(viable, s.found, s.found, s.found, s.stack, skip);
      }
    } else {
      RecordCounted(viable, order, skip, first, s);
    }
  }

  lemma RecordCounted(viable: Viable, order: seq<string>, skip: set<set<string>>, first: Entry, s: Search)
    requires IsOrder(viable, order) && s.stack != [] && Counted(viable, skip, first, s)
    requires s.stack[|s.stack| - 1].start !in s.found
    ensures var n := |s.stack| - 1;
            var e := s.stack[n];
            var found := s.found + {e.start};
            Counted(viable, skip, first, Search(found, s.stack[..n] + PushAll(viable, order, skip, found, e)))
  {
    var n := |s.stack| - 1;
    var e, rest := s.stack[n], s.stack[..n];
    var found := s.found + {e.start};
    var pushed := PushAll(viable, order, skip, found, e);
    assert s.stack == rest + [e];
    assert e in s.stack && forall x :: x in rest ==> x in s.stack;
    forall x | x in pushed ensures x.rem + |found| >= first.rem {
      PushAllPushes(viable, order, skip, found, e, x);
    }
    if |found| <= first.rem {
      PopExplored(viable, s.found, s.found, found, s.stack, skip);
      PushExplored(viable, order, s.found, found, rest, skip, e);
    }
    assert Covered(found, rest, skip, first.start);
    CoveredMore(found, rest, pushed, skip, first.start);
  }

  // ---------------------------------------------------------------- what the result holds

  /** The size limit suffices: all but one member of `s` together with the start switch on fewer
      features beyond the start than the limit says. */
  ghost predicate Affordable(viable: Viable, start: set<string>, remaining: nat, s: set<string>) {
    s == start
    || exists f :: f in s && |Flattened(viable, start + (s - {f}))| < |Flattened(viable, start)| + remaining
  }

  /** The independent sets that switch the start on, meet no skip set on the way, and are affordable. */
  ghost predicate Promised(viable: Viable, skip: set<set<string>>, start: set<string>, remaining: nat, s: set<string>) {
    && Independent(viable, s) && start <= Flattened(viable, s)
    && !Skipped(skip, start + s) && Affordable(viable, start, remaining, s)
  }

  /** On the way from the start to `s`, after the members in `done`. */
  ghost predicate OnTheWay(viable: Viable, start: set<string>, done: set<string>, t: set<string>) {
    Sound(viable, t) && done <= t <= start + done && Flattened(viable, t) == Flattened(viable, start + done)
  }

  /** A member of an independent set is not switched on by the others or by what they switch on. */
  lemma NotSwitchedOn(viable: Viable, s: set<string>, t: set<string>, f: string)
    requires TransitivelyClosed(viable) && Acyclic(viable) && Independent(viable, s)
    requires t <= Flattened(viable, s) && f in s && f !in t
    ensures f !in Flattened(viable, t)
  {
    forall x | x in t && x in viable ensures f !in viable[x] {
      var y :| y in s && y in viable && (x == y || x in viable[y]);
      assert viable[x] <= viable[y];
    }
  }

  lemma FlattenedIdempotent(viable: Viable, a: set<string>, b: set<string>, f: string)
    requires f in viable && Flattened(viable, a) == Flattened(viable, b)
    ensures Flattened(viable, a + {f}) == Flattened(viable, b + {f})
  {
    forall d | d in Flattened(viable, a + {f}) ensures d in Flattened(viable, b + {f}) {
      if x :| x in a && x in viable && (d == x || d in viable[x]) {
        assert d in Flattened(viable, a);
      }
    }
    forall d | d in Flattened(viable, b + {f}) ensures d in Flattened(viable, a + {f}) {
      if x :| x in b && x in viable && (d == x || d in viable[x]) {
        assert d in Flattened(viable, b);
      }
    }
  }

  /** One more member of `s` is added. */
  lemma OneFurther(
    viable: Viable, skip: set<set<string>>, first: Entry, found: set<set<string>>, s: set<string>,
    done: set<string>, t: set<string>, f: string) returns (u: set<string>)
    requires TransitivelyClosed(viable) && Acyclic(viable) && Sound(viable, first.start)
    requires Explored(viable, Roomy(viable, first, found), found, [], skip)
    requires Independent(viable, s) && first.start <= Flattened(viable, s) && !Skipped(skip, first.start + s)
    requires done < s && f in s - done && t in found && OnTheWay(viable, first.start, done, t)
    requires |Flattened(viable, first.start + done)| < |Flattened(viable, first.start)| + first.rem
    ensures u in found && OnTheWay(viable, first.start, done + {f}, u)
  {
    if f in t {
      u := t;
      assert first.start + (done + {f}) == (first.start + done) + {f} && t + {f} == t;
      FlattenedIdempotent(viable, t, first.start + done, f);
    } else {
      u := Successor(viable, t, f);
      assert t in Roomy(viable, first, found);
      SuccessorOnTheWay(viable, first.start, s, done, t, f);
      assert u <= first.start + s && !Skipped(skip, u);
    }
  }

  lemma SuccessorOnTheWay(viable: Viable, start: set<string>, s: set<string>, done: set<string>, t: set<string>, f: string)
    requires TransitivelyClosed(viable) && Acyclic(viable)
    requires Independent(viable, s) && start <= Flattened(viable, s) && done < s && f in s - done
    requires OnTheWay(viable, start, done, t) && f !in t
    ensures f !in Flattened(viable, t) && OnTheWay(viable, start, done + {f}, Successor(viable, t, f))
  {
    assert t <= Flattened(viable, s);
    NotSwitchedOn(viable, s, t, f);
    SuccessorSound(viable, t, f);
    KeepsDone(viable, s, done, f);
    assert start + (done + {f}) == (start + done) + {f};
    SuccessorFlattened(viable, t, f);
    FlattenedIdempotent(viable, t, start + done, f);
  }

  lemma KeepsDone(viable: Viable, s: set<string>, done: set<string>, f: string)
    requires Independent(viable, s) && done <= s && f in s
    ensures done - {f} !! viable[f]
  {
  }

  lemma {:induction false} WayTo(
    viable: Viable, skip: set<set<string>>, first: Entry, found: set<set<string>>, s: set<string>, done: set<string>)
    returns (t: set<string>)
    requires TransitivelyClosed(viable) && Acyclic(viable) && Sound(viable, first.start)
    requires Explored(viable, Roomy(viable, first, found), found, [], skip) && first.start in found
    requires Independent(viable, s) && first.start <= Flattened(viable, s) && !Skipped(skip, first.start + s)
    requires done <= s
    requires forall f :: f in done ==> |Flattened(viable, first.start + (done - {f}))| < |Flattened(viable, first.start)| + first.rem
    ensures t in found && OnTheWay(viable, first.start, done, t)
    decreases |done|
  {
    if done == {} {
      t := first.start;
      assert first.start + done == first.start;
    } else {
      var f :| f in done;
      var less := done - {f};
      forall g | g in less
        ensures |Flattened(viable, first.start + (less - {g}))| < |Flattened(viable, first.start)| + first.rem
      {
        FlattenedGrows(viable, first.start + (less - {g}), first.start + less);
      }
      var u := WayTo(viable, skip, first, found, s, less);
      t := OneFurther(viable, skip, first, found, s, less, u, f);
      assert less + {f} == done;
    }
  }

  /** What lies on the way with all members done is `s` itself. */
  lemma WayEnds(viable: Viable, start: set<string>, s: set<string>, t: set<string>)
    requires Independent(viable, s) && start <= Flattened(viable, s) && OnTheWay(viable, start, s, t)
    ensures t == s
  {
    forall x | x in t ensures x in s {
      assert x in Flattened(viable, s);
      var y :| y in s && y in viable && (x == y || x in viable[y]);
    }
  }

  lemma PromisedIsFound(viable: Viable, skip: set<set<string>>, first: Entry, found: set<set<string>>, s: set<string>)
    requires TransitivelyClosed(viable) && Acyclic(viable) && Sound(viable, first.start)
    requires Complete(viable, skip, first, Search(found, []))
    requires Promised(viable, skip, first.start, first.rem, s)
    ensures s in found
  {
    assert !Skipped(skip, first.start);
    if s != first.start {
      var f :| f in s && |Flattened(viable, first.start + (s - {f}))| < |Flattened(viable, first.start)| + first.rem;
      var less := s - {f};
      forall g | g in less
        ensures |Flattened(viable, first.start + (less - {g}))| < |Flattened(viable, first.start)| + first.rem
      {
        FlattenedGrows(viable, first.start + (less - {g}), first.start + less);
      }
      var u := WayTo(viable, skip, first, found, s, less);
      var t := OneFurther(viable, skip, first, found, s, less, u, f);
      assert less + {f} == s;
      WayEnds(viable, first.start, s, t);
    }
  }

  /** Every self-dependent feature is excluded by a skip set of its own. */
  ghost predicate SelfSkipped(viable: Viable, skip: set<set<string>>) {
    forall f :: f in viable && f in viable[f] ==> Skipped(skip, {f})
  }

  /** With everything explored from the empty set, every wanted set has been recorded. */
  lemma {:induction false} ExploredIsComplete(viable: Viable, found: set<set<string>>, skip: set<set<string>>, s: set<string>)
    requires SelfSkipped(viable, skip) && Explored(viable, found, found, [], skip)
    requires Covered(found, [], skip, {})
    requires s in Wanted(viable, skip)
    ensures s in found
    decreases |s|
  {
    if s != {} {
      var f :| f in s;
      var t := s - {f};
      assert !Skipped(skip, t) && !Skipped(skip, {f});
      assert t in Wanted(viable, skip);
      ExploredIsComplete(viable, found, skip, t);
      assert f !in Flattened(viable, t);
      assert Successor(viable, t, f) == s;
    }
  }

  // ---------------------------------------------------------------- the loop

  function Peek(u: int): bool {
    true
  }

  /** The invariant of the outer loop; the trigger keeps its parts together in proofs that only
      pass it on. */
  ghost predicate LoopInv(first: Entry, viable: Viable, skip: set<set<string>>, s: Search) {
    forall u {:trigger Peek(u)} :: Peek(u) ==>
      && Legal(viable, skip, first, s)
      && (Sound(viable, first.start) ==> AllSound(viable, |first.start| + first.rem, s))
      && (Sound(viable, first.start) && TransitivelyClosed(viable) && Acyclic(viable) ==> Complete(viable, skip, first, s))
      && Counted(viable, skip, first, s)
  }

  lemma LoopStarts(first: Entry, viable: Viable, skip: set<set<string>>)
    ensures LoopInv(first, viable, skip, Search({}, [first]))
  {
    StartIsCounted(first, viable, skip);
    StartIsSound(first, viable, skip);
  }

  lemma StartIsSound(first: Entry, viable: Viable, skip: set<set<string>>)
    ensures Sound(viable, first.start) ==> AllSound(viable, |first.start| + first.rem, Search({}, [first]))
    ensures Sound(viable, first.start) ==> Complete(viable, skip, first, Search({}, [first]))
  {
    assert forall e :: e in [first] ==> e == first;
    assert Roomy(viable, first, {}) == {};
    assert Covered({}, [first], skip, first.start) by {
      assert first in [first];
    }
  }

  lemma StartIsCounted(first: Entry, viable: Viable, skip: set<set<string>>)
    ensures Legal(viable, skip, first, Search({}, [first])) && Counted(viable, skip, first, Search({}, [first]))
  {
    assert Covered({}, [first], skip, first.start) by {
      assert first in [first];
    }
    assert Explored(viable, {}, {}, [first], skip);
  }

  lemma SoundKept(first: Entry, viable: Viable, order: seq<string>, skip: set<set<string>>, s: Search)
    requires s.stack != [] && LoopInv(first, viable, skip, s)
    ensures Sound(viable, first.start) ==> AllSound(viable, |first.start| + first.rem, Step(viable, order, skip, s))
  {
    assert Peek(0);
    if Sound(viable, first.start) {
      StepSound(viable, order, skip, |first.start| + first.rem, s);
    }
  }

  lemma CompleteKept(first: Entry, viable: Viable, order: seq<string>, skip: set<set<string>>, s: Search)
    requires IsOrder(viable, order) && s.stack != [] && LoopInv(first, viable, skip, s)
    ensures Sound(viable, first.start) && TransitivelyClosed(viable) && Acyclic(viable) ==>
              Complete(viable, skip, first, Step(viable, order, skip, s))
  {
    assert Peek(0);
    if Sound(viable, first.start) && TransitivelyClosed(viable) && Acyclic(viable) {
      StepComplete(viable, order, skip, first, s);
    }
  }

  lemma RestKept(first: Entry, viable: Viable, order: seq<string>, skip: set<set<string>>, s: Search)
    requires IsOrder(viable, order) && s.stack != [] && LoopInv(first, viable, skip, s) && Indexable(viable, skip, s)
    ensures Legal(viable, skip, first, Step(viable, order, skip, s))
    ensures Counted(viable, skip, first, Step(viable, order, skip, s))
  {
    assert Peek(0);
    StepLegal(viable, order, skip, first, s);
    StepCounted(viable, order, skip, first, s);
  }

  lemma LoopSteps(first: Entry, viable: Viable, order: seq<string>, skip: set<set<string>>, s: Search)
    requires IsOrder(viable, order) && s.stack != [] && LoopInv(first, viable, skip, s) && Indexable(viable, skip, s)
    ensures LoopInv(first, viable, skip, Step(viable, order, skip, s))
  {
    SoundKept(first, viable, order, skip, s);
    CompleteKept(first, viable, order, skip, s);
    RestKept(first, viable, order, skip, s);
  }

  /** What `find_permutations` promises; `None` is the panic of the map index `viable_features[f]`. */
  ghost predicate Enumerated(
    start: set<string>, remaining: nat, viable: Viable, skip: set<set<string>>, r: Option<set<set<string>>>)
  {
    && (r.None? <==> !(start <= viable.Keys) && remaining > 0 && !Skipped(skip, start))
    && (r.Some? ==> forall s :: s in r.value ==> s <= start + viable.Keys && forall k :: k in skip ==> !(k <= s))
    && (r.Some? && Sound(viable, start) ==> forall s :: s in r.value ==> Sound(viable, s) && |s| <= |start| + remaining)
    && (r.Some? && Sound(viable, start) && TransitivelyClosed(viable) && Acyclic(viable) ==>
          && (forall s :: s in r.value ==> Flattened(viable, start) <= Flattened(viable, s))
          && (forall s :: Promised(viable, skip, start, remaining, s) ==> s in r.value))
    && (r.Some? && start == {} && |r.value| <= remaining && SelfSkipped(viable, skip) ==> r.value == Wanted(viable, skip))
  }

  lemma LoopEnds(first: Entry, viable: Viable, skip: set<set<string>>, found: set<set<string>>)
    requires LoopInv(first, viable, skip, Search(found, []))
    ensures Enumerated(first.start, first.rem, viable, skip, Some(found))
  {
    assert Peek(0);
    if Sound(viable, first.start) && TransitivelyClosed(viable) && Acyclic(viable) {
      forall s | Promised(viable, skip, first.start, first.rem, s) ensures s in found {
        PromisedIsFound(viable, skip, first, found, s);
      }
    }
    if first.start == {} && |found| <= first.rem && SelfSkipped(viable, skip) {
      forall s | s in Wanted(viable, skip) ensures s in found {
        ExploredIsComplete(viable, found, skip, s);
      }
    }
  }

  lemma LoopPanics(first: Entry, viable: Viable, skip: set<set<string>>, s: Search)
    requires s.stack != [] && LoopInv(first, viable, skip, s) && !Indexable(viable, skip, s)
    ensures Enumerated(first.start, first.rem, viable, skip, None)
  {
    assert Peek(0);
    assert s.stack[|s.stack| - 1] in s.stack;
  }

  /** Everything on the stack lies between nothing and the start with all viable features. */
  lemma TopInRange(first: Entry, viable: Viable, skip: set<set<string>>, s: Search)
    requires s.stack != [] && LoopInv(first, viable, skip, s)
    ensures s.stack[|s.stack| - 1].start in Subsets(first.start + viable.Keys)
  {
    assert Peek(0);
    assert s.stack[|s.stack| - 1] in s.stack;
  }

  ghost function Subsets(u: set<string>): (r: set<set<string>>)
    ensures forall s :: s in r <==> s <= u
  {
    set s | s <= u
  }

  /** Termination: what is still to be recorded shrinks. */
  lemma RecordShrinks(all: set<set<string>>, found: set<set<string>>, x: set<string>)
    requires x in all && x !in found
    ensures |all - (found + {x})| < |all - found|
  {
    assert all - (found + {x}) == (all - found) - {x};
  }

  /** The inner loop of `find_permutations`. */
  method PushSuccessors(viable: Viable, order: seq<string>, skip: set<set<string>>, found: set<set<string>>, e: Entry)
    returns (pushed: seq<Entry>)
    requires IsOrder(viable, order) && e.rem > 0
    ensures pushed == PushAll(viable, order, skip, found, e)
  {
    var flattened := Flattened(viable, e.start);
    pushed := [];
    for i := 0 to |order|
      invariant pushed == PushAll(viable, order[..i], skip, found, e)
    {
      assert order[..i + 1][..i] == order[..i];
      assert order[i] in order;
      if order[i] !in flattened {
        var newStart := e.start + {order[i]} - viable[order[i]];
        if newStart !in found && newStart !in skip {
          pushed := pushed + [Entry(newStart, e.rem - 1)];
        }
      }
    }
    assert order[..|order|] == order;
  }

  /** `find_permutations`, started on an empty `permutations`. */
  method FindPermutations(start: set<string>, remaining: nat, viable: Viable, order: seq<string>, skip: set<set<string>>)
    returns (r: Option<set<set<string>>>)
    requires IsOrder(viable, order)
    ensures Enumerated(start, remaining, viable, skip, r)
    ensures r.Some? ==> Yields(viable, order, skip, Search({}, [Entry(start, remaining)]), r.value)
  {
    ghost var first := Entry(start, remaining);
    ghost var init := Search({}, [first]);
    var found: set<set<string>> := {};
    var stack := [Entry(start, remaining)];
    LoopStarts(first, viable, skip);
    while stack != []
      invariant LoopInv(first, viable, skip, Search(found, stack))
      invariant Leads(viable, order, skip, init, Search(found, stack))
      decreases |Subsets(start + viable.Keys) - found|, |stack|
    {
      ghost var s := Search(found, stack);
      var e, rest := stack[|stack| - 1], stack[..|stack| - 1];
      TopInRange(first, viable, skip, s);
      if e.rem > 0 && !Skipped(skip, e.start) && e.start !in found && !(e.start <= viable.Keys) {
        LoopPanics(first, viable, skip, s);
        return None;
      }
      LoopSteps(first, viable, order, skip, s);
      if Skipped(skip, e.start) || e.start in found {
        stack := rest;
      } else {
        RecordShrinks(Subsets(start + viable.Keys), found, e.start);
        found := found + {e.start};
        var pushed: seq<Entry> := [];
        if e.rem > 0 {
          pushed := PushSuccessors(viable, order, skip, found, e);
        } else {
          NothingPushed(viable, order, skip, found, e);
        }
        stack := rest + pushed;
      }
      assert Search(found, stack) == Step(viable, order, skip, s);
      YieldsKept(viable, order, skip, init, s);
    }
    LoopEnds(first, viable, skip, found);
    YieldsEnd(viable, order, skip, Search(found, []), found);
    r := Some(found);
  }

  lemma {:induction false} NothingPushed(viable: Viable, order: seq<string>, skip: set<set<string>>, found: set<set<string>>, e: Entry)
    requires e.rem == 0
    ensures PushAll(viable, order, skip, found, e) == []
  {
    if order != [] {
      NothingPushed(viable, order[..|order| - 1], skip, found, e);
    }
  }

  // ---------------------------------------------------------------- consequences

  /** With a size limit of at least the number of viable features, and dependencies that are
      acyclic and transitively closed, the empty start yields exactly the wanted sets. */
  lemma LargeSizeIsExact(viable: Viable, skip: set<set<string>>, remaining: nat, r: Option<set<set<string>>>)
    requires Enumerated({}, remaining, viable, skip, r) && remaining >= |viable|
    requires TransitivelyClosed(viable) && Acyclic(viable)
    ensures r == Some(Wanted(viable, skip))
  {
    FoundIsWanted(viable, skip, remaining, r);
    forall s | s in Wanted(viable, skip) ensures s in r.value {
      WantedIsPromised(viable, skip, remaining, s);
    }
    assert r.value == Wanted(viable, skip);
  }

  /** From the empty set nothing but wanted sets within the size limit is found. */
  lemma FoundIsWanted(viable: Viable, skip: set<set<string>>, remaining: nat, r: Option<set<set<string>>>)
    requires Enumerated({}, remaining, viable, skip, r)
    ensures r.Some? && Sound(viable, {}) && r.value <= Wanted(viable, skip)
    ensures forall s :: s in r.value ==> |s| <= remaining
  {
    assert Sound(viable, {});
    forall s | s in r.value ensures s in Wanted(viable, skip) {
      assert Sound(viable, s);
    }
  }

  lemma WantedIsPromised(viable: Viable, skip: set<set<string>>, remaining: nat, s: set<string>)
    requires TransitivelyClosed(viable) && Acyclic(viable) && remaining >= |viable| && s in Wanted(viable, skip)
    ensures Promised(viable, skip, {}, remaining, s)
  {
    assert {} + s == s;
    if s != {} {
      LastMember(viable, {}, s, remaining);
    }
  }

  /** No viable feature depends on a viable feature. */
  ghost predicate Unrelated(viable: Viable) {
    forall f, d :: f in viable && d in viable ==> d !in viable[f]
  }

  /** If no viable feature depends on a viable feature, every size limit is kept exactly: the empty
      start yields the wanted sets of at most that size. */
  lemma SizeLimitIsExact(viable: Viable, skip: set<set<string>>, remaining: nat, r: Option<set<set<string>>>)
    requires Enumerated({}, remaining, viable, skip, r)
    requires Unrelated(viable)
    ensures r.Some? && forall s :: s in r.value <==> s in Wanted(viable, skip) && |s| <= remaining
  {
    FoundIsWanted(viable, skip, remaining, r);
    forall s | s in Wanted(viable, skip) && |s| <= remaining ensures s in r.value {
      SmallIsFound(viable, skip, remaining, r, s);
    }
  }

  lemma SmallIsFound(viable: Viable, skip: set<set<string>>, remaining: nat, r: Option<set<set<string>>>, s: set<string>)
    requires Enumerated({}, remaining, viable, skip, r) && r.Some? && Unrelated(viable) && Sound(viable, {})
    requires s in Wanted(viable, skip) && |s| <= remaining
    ensures s in r.value
  {
    assert TransitivelyClosed(viable) && Acyclic(viable);
    SmallIsPromised(viable, skip, remaining, s);
  }

  lemma SmallIsPromised(viable: Viable, skip: set<set<string>>, remaining: nat, s: set<string>)
    requires Unrelated(viable) && s in Wanted(viable, skip) && |s| <= remaining
    ensures Promised(viable, skip, {}, remaining, s)
  {
    assert {} + s == s;
    assert Affordable(viable, {}, remaining, s) by {
      if f :| f in s {
        assert {} + (s - {f}) == s - {f};
        assert Flattened(viable, s - {f}) == s - {f};
        assert Flattened(viable, {}) == {};
      }
    }
  }

  /** A start whose features are always switched on: without skip sets and with a large size limit
      the result is exactly the independent sets that switch it on. */
  lemma StartIsExact(viable: Viable, start: set<string>, remaining: nat, r: Option<set<set<string>>>)
    requires Enumerated(start, remaining, viable, {}, r) && remaining >= |viable|
    requires TransitivelyClosed(viable) && Acyclic(viable) && Sound(viable, start)
    ensures r.Some? && forall s :: s in r.value <==> Independent(viable, s) && start <= Flattened(viable, s)
  {
    forall s | s in r.value ensures start <= Flattened(viable, s) {
      assert start <= Flattened(viable, start);
    }
    forall s | Independent(viable, s) && start <= Flattened(viable, s) ensures s in r.value {
      if s != start {
        LastMember(viable, start, s, remaining);
      }
      assert Promised(viable, {}, start, remaining, s);
    }
  }

  lemma SubsetIsStart(viable: Viable, start: set<string>, s: set<string>)
    requires Independent(viable, start) && start <= Flattened(viable, s) && s <= start
    ensures s == start
  {
    forall x | x in start ensures x in s {
      var y :| y in s && y in viable && (x == y || x in viable[y]);
    }
  }

  /** With a large size limit everything is affordable. */
  lemma LastMember(viable: Viable, start: set<string>, s: set<string>, remaining: nat)
    requires TransitivelyClosed(viable) && Acyclic(viable) && Sound(viable, start) && remaining >= |viable|
    requires Independent(viable, s) && start <= Flattened(viable, s) && s != start
    ensures Affordable(viable, start, remaining, s)
  {
    assert !(s <= start) by {
      if s <= start {
        SubsetIsStart(viable, start, s);
      }
    }
    var f :| f in s && f !in start;
    var others := start + (s - {f});
    assert others <= Flattened(viable, s);
    NotSwitchedOn(viable, s, others, f);
    assert |viable| == |viable.Keys|;
    SubsetSize(Flattened(viable, others), viable.Keys);
  }

  /** A feature that depends on itself is never enumerated, although its singleton is wanted unless
      a skip set excludes it. */
  lemma CycleIsMissed(viable: Viable, skip: set<set<string>>, remaining: nat, r: Option<set<set<string>>>, f: string)
    requires Enumerated({}, remaining, viable, skip, r)
    requires f in viable && f in viable[f] && !Skipped(skip, {f})
    ensures r.Some? && {f} in Wanted(viable, skip) && {f} !in r.value
  {
    assert f in {f};
    assert Sound(viable, {});
  }

  /** The exact condition, for every dependency map: if the size limit is not exceeded by the
      number of sets found (a limit of 2 to the number of viable features never is), the
      enumeration is exact if and only if every self-dependent feature is excluded by a skip set. */
  lemma ExactlyWhenSelfSkipped(viable: Viable, skip: set<set<string>>, remaining: nat, r: Option<set<set<string>>>)
    requires Enumerated({}, remaining, viable, skip, r) && r.Some?
    requires |r.value| <= remaining || |Subsets(viable.Keys)| <= remaining
    ensures r.value == Wanted(viable, skip) <==> SelfSkipped(viable, skip)
  {
    if SelfSkipped(viable, skip) {
      FoundIsWanted(viable, skip, remaining, r);
      SubsetSize(r.value, Subsets(viable.Keys));
    } else {
      var f :| f in viable && f in viable[f] && !Skipped(skip, {f});
      CycleIsMissed(viable, skip, remaining, r, f);
    }
  }

  /** With a size limit of at least the number of viable features and transitively closed
      dependencies: without self-dependent features the result is exact; with one that no skip set
      excludes it is not. */
  lemma DefaultSizeDecided(viable: Viable, skip: set<set<string>>, remaining: nat, r: Option<set<set<string>>>)
    requires Enumerated({}, remaining, viable, skip, r) && remaining >= |viable| && TransitivelyClosed(viable)
    ensures r.Some?
    ensures Acyclic(viable) ==> r.value == Wanted(viable, skip)
    ensures !SelfSkipped(viable, skip) ==> r.value != Wanted(viable, skip)
  {
    if Acyclic(viable) {
      LargeSizeIsExact(viable, skip, remaining, r);
    }
    if !SelfSkipped(viable, skip) {
      var f :| f in viable && f in viable[f] && !Skipped(skip, {f});
      CycleIsMissed(viable, skip, remaining, r, f);
    }
  }
}
