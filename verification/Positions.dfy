/** Sequences that stand inside other sequences. */
module Positions {

  function ItemOf<T>(items: seq<T>, i: nat): T
    requires i < |items|
  {
    items[i]
  }

  /** `items` stand in `whole` at position `p`. */
  ghost predicate At<T>(whole: seq<T>, p: nat, items: seq<T>) {
    p + |items| <= |whole|
    && forall i {:trigger ItemOf(items, i)} :: 0 <= i < |items| ==> whole[p + i] == ItemOf(items, i)
  }

  lemma AtSlice<T>(whole: seq<T>, p: nat, items: seq<T>)
    requires p + |items| <= |whole|
    ensures At(whole, p, items) <==> whole[p..p + |items|] == items
  {
    if whole[p..p + |items|] == items {
      forall i | 0 <= i < |items| ensures whole[p + i] == ItemOf(items, i) {
        assert whole[p..p + |items|][i] == items[i];
      }
    }
    if At(whole, p, items) {
      forall i | 0 <= i < |items| ensures whole[p..p + |items|][i] == items[i] {
        assert whole[p + i] == ItemOf(items, i);
      }
    }
  }

  lemma AtSplit<T>(whole: seq<T>, p: nat, a: seq<T>, b: seq<T>)
    requires At(whole, p, a + b)
    ensures At(whole, p, a) && At(whole, p + |a|, b)
  {
    forall i | 0 <= i < |a| ensures whole[p + i] == ItemOf(a, i) {
      assert whole[p + i] == ItemOf(a + b, i);
    }
    forall i | 0 <= i < |b| ensures whole[p + |a| + i] == ItemOf(b, i) {
      assert whole[p + (|a| + i)] == ItemOf(a + b, |a| + i);
    }
  }

  lemma AtStart<T>(whole: seq<T>)
    ensures At(whole, 0, whole)
  {
  }
}
