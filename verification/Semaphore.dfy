/** Permit accounting for the semaphore that bounds how many batches run at once. */
module Semaphore {

  /** The number of elements of `s` that hold a permit. */
  function Holders<T>(holds: T -> bool, s: seq<T>): nat {
    if s == [] then 0
    else Holders(holds, s[..|s| - 1]) + (if holds(s[|s| - 1]) then 1 else 0)
  }

  lemma HoldersAppend<T>(holds: T -> bool, s: seq<T>, x: T)
    ensures Holders(holds, s + [x]) == Holders(holds, s) + (if holds(x) then 1 else 0)
  {
    assert (s + [x])[..|s|] == s;
  }

  lemma {:induction false} HoldersUpdate<T>(holds: T -> bool, s: seq<T>, i: nat, x: T)
    requires i < |s|
    ensures Holders(holds, s[i := x])
         == Holders(holds, s) - (if holds(s[i]) then 1 else 0) + (if holds(x) then 1 else 0)
  {
    var n := |s| - 1;
    if i == n {
      assert s[i := x][..n] == s[..n];
    } else {
      assert s[i := x][..n] == s[..n][i := x];
      HoldersUpdate(holds, s[..n], i, x);
    }
  }

  /** A positive count has a witness: somebody holds a permit. */
  lemma {:induction false} SomebodyHolds<T>(holds: T -> bool, s: seq<T>)
    requires Holders(holds, s) > 0
    ensures exists i :: 0 <= i < |s| && holds(s[i])
  {
    var n := |s| - 1;
    if !holds(s[n]) {
      SomebodyHolds(holds, s[..n]);
      var i :| 0 <= i < n && holds(s[..n][i]);
      assert holds(s[i]);
    }
  }
}
