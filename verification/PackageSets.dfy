/** The feature sets that `test_package_features` returns. */
module PackageSets {
  // Every enumerated set is extended by one additive feature after the other; a feature that is added
  // switches off what it depends on.  The sets are described member by member, apart from the loop.

  import opened Features
  import opened Permutations
  import opened PackageFeatures

  /** The additive feature `f` is not switched on by `p` or by what its members depend on. */
  ghost predicate Off(viable: Viable, additive: Viable, p: set<string>, f: string)
    requires p <= viable.Keys
  {
    f in additive && f !in p && forall m :: m in p ==> f !in viable[m]
  }

  /** No feature added at the places from `i` up to `k` of the order depends on `x`. */
  ghost predicate Stays(viable: Viable, additive: Viable, order: seq<string>, p: set<string>, i: nat, k: nat, x: string)
    requires p <= viable.Keys && k <= |order|
  {
    forall j :: i <= j < k && Off(viable, additive, p, order[j]) ==> x !in additive[order[j]]
  }

  /** `x` is on after the first `k` features of the order: it was there or has been added, and no
      feature added since depends on it. */
  ghost predicate OnAt(viable: Viable, additive: Viable, order: seq<string>, p: set<string>, k: nat, x: string)
    requires p <= viable.Keys && k <= |order|
  {
    || (x in p && Stays(viable, additive, order, p, 0, k, x))
    || (Off(viable, additive, p, x) && exists i :: 0 <= i < k && order[i] == x && Stays(viable, additive, order, p, i, k, x))
  }

  ghost function Stage(viable: Viable, additive: Viable, order: seq<string>, p: set<string>, k: nat): set<string>
    requires p <= viable.Keys && k <= |order|
  {
    set x | x in p + additive.Keys && OnAt(viable, additive, order, p, k, x)
  }

  lemma OffMeans(viable: Viable, additive: Viable, p: set<string>, f: string)
    requires p <= viable.Keys
    ensures Off(viable, additive, p, f) <==> f in additive && f !in SwitchedOn(viable, p)
  {
    if m :| m in p && f in viable[m] {
      assert f in viable[m] + {m};
    }
    if f in p {
      assert f in viable[f] + {f};
    }
    if f in SwitchedOn(viable, p) {
      var m :| m in p && f in viable[m] + {m};
    }
  }

  lemma StaysStep(viable: Viable, additive: Viable, order: seq<string>, p: set<string>, i: nat, k: nat, x: string)
    requires p <= viable.Keys && i <= k < |order|
    ensures Stays(viable, additive, order, p, i, k + 1, x)
       <==> Stays(viable, additive, order, p, i, k, x) && !(Off(viable, additive, p, order[k]) && x in additive[order[k]])
  {
  }

  lemma OnAtStep(viable: Viable, additive: Viable, order: seq<string>, p: set<string>, k: nat, x: string)
    requires p <= viable.Keys && k < |order|
    ensures OnAt(viable, additive, order, p, k + 1, x)
       <==> if Off(viable, additive, p, order[k])
            then x !in additive[order[k]] && (x == order[k] || OnAt(viable, additive, order, p, k, x))
            else OnAt(viable, additive, order, p, k, x)
  {
    forall i | 0 <= i <= k
      ensures Stays(viable, additive, order, p, i, k + 1, x)
         <==> Stays(viable, additive, order, p, i, k, x) && !(Off(viable, additive, p, order[k]) && x in additive[order[k]])
    {
      StaysStep(viable, additive, order, p, i, k, x);
    }
    assert Stays(viable, additive, order, p, k, k, x);
  }

  lemma StageStep(viable: Viable, additive: Viable, order: seq<string>, p: set<string>, k: nat)
    requires p <= viable.Keys && k < |order|
    ensures Stage(viable, additive, order, p, k + 1)
         == if Off(viable, additive, p, order[k])
            then Stage(viable, additive, order, p, k) + {order[k]} - additive[order[k]]
            else Stage(viable, additive, order, p, k)
  {
    forall x ensures OnAt(viable, additive, order, p, k + 1, x)
                <==> if Off(viable, additive, p, order[k])
                     then x !in additive[order[k]] && (x == order[k] || OnAt(viable, additive, order, p, k, x))
                     else OnAt(viable, additive, order, p, k, x)
    {
      OnAtStep(viable, additive, order, p, k, x);
    }
  }

  /** The sets after each of the first `k` features, and before the first. */
  ghost function Stages(viable: Viable, additive: Viable, order: seq<string>, p: set<string>, k: nat): set<set<string>>
    requires p <= viable.Keys && k <= |order|
  {
    set i | 0 <= i <= k :: Stage(viable, additive, order, p, i)
  }

  lemma {:induction false} ChainIsStages(viable: Viable, additive: Viable, order: seq<string>, p: set<string>, k: nat)
    requires p <= viable.Keys && k <= |order|
    ensures ChainOf(additive, order[..k], SwitchedOn(viable, p), p)
         == Chain(Stage(viable, additive, order, p, k), Stages(viable, additive, order, p, k))
  {
    if k == 0 {
      assert Stage(viable, additive, order, p, 0) == p;
      assert Stages(viable, additive, order, p, 0) == {p};
    } else {
      ChainIsStages(viable, additive, order, p, k - 1);
      assert order[..k][..k - 1] == order[..k - 1];
      StageStep(viable, additive, order, p, k - 1);
      OffMeans(viable, additive, p, order[k - 1]);
      assert Stages(viable, additive, order, p, k)
          == Stages(viable, additive, order, p, k - 1) + {Stage(viable, additive, order, p, k)};
      assert Stage(viable, additive, order, p, k - 1) in Stages(viable, additive, order, p, k - 1);
    }
  }

  /** The extended sets, exactly: every enumerated set after each prefix of the additive features. */
  lemma ExtendedExactly(viable: Viable, additive: Viable, order: seq<string>, found: set<set<string>>, s: set<string>)
    requires forall p :: p in found ==> p <= viable.Keys
    ensures s in Extended(viable, additive, order, found)
       <==> exists p, k :: p in found && 0 <= k <= |order| && s == Stage(viable, additive, order, p, k)
  {
    assert order[..|order|] == order;
    forall p | p in found
      ensures s in ChainOf(additive, order, SwitchedOn(viable, p), p).sets
         <==> exists k :: 0 <= k <= |order| && s == Stage(viable, additive, order, p, k)
    {
      ChainIsStages(viable, additive, order, p, |order|);
    }
  }

  // ---------------------------------------------------------------- main results

  /** The sets that the whole function returns, exactly: an enumerated set after some prefix of the
      additive features, or the always-included features with one additive feature that they leave off. */
  lemma ReturnedExactly(
    g: Graph, meta: Metadata, additiveOrder: seq<string>, found: set<set<string>>, sets: set<set<string>>, s: set<string>)
    requires Result(g, meta, additiveOrder, found, sets)
    ensures var viable, additive, always := ViableOf(g, meta), AdditiveOf(g, meta), AlwaysOf(g, meta);
            s in sets <==>
              || (exists p, k :: p in found && 0 <= k <= |additiveOrder| && s == Stage(viable, additive, additiveOrder, p, k))
              || (exists f :: Off(viable, additive, always, f) && s == always + {f})
  {
    var viable, additive, always := ViableOf(g, meta), AdditiveOf(g, meta), AlwaysOf(g, meta);
    ExtendedExactly(viable, additive, additiveOrder, found, s);
    forall f ensures Off(viable, additive, always, f) <==> f in additive && f !in SwitchedOn(viable, always) {
      OffMeans(viable, additive, always, f);
    }
  }

  /** `s` has nothing but members of `p` and additive features that `p` leaves off. */
  ghost predicate Gains(viable: Viable, additive: Viable, p: set<string>, s: set<string>)
    requires p <= viable.Keys
  {
    forall x :: x in s ==> x in p || Off(viable, additive, p, x)
  }

  lemma EnumeratedIsReturned(
    g: Graph, meta: Metadata, additiveOrder: seq<string>, found: set<set<string>>, sets: set<set<string>>, p: set<string>)
    requires Result(g, meta, additiveOrder, found, sets) && p in found
    ensures p in sets
  {
    ReturnedExactly(g, meta, additiveOrder, found, sets, p);
    assert Stage(ViableOf(g, meta), AdditiveOf(g, meta), additiveOrder, p, 0) == p;
  }

  lemma ReturnedGains(
    g: Graph, meta: Metadata, additiveOrder: seq<string>, found: set<set<string>>, sets: set<set<string>>, s: set<string>)
    returns (p: set<string>)
    requires Result(g, meta, additiveOrder, found, sets) && s in sets
    ensures (p in found || p == AlwaysOf(g, meta)) && p <= ViableOf(g, meta).Keys
    ensures Gains(ViableOf(g, meta), AdditiveOf(g, meta), p, s)
  {
    var viable, additive := ViableOf(g, meta), AdditiveOf(g, meta);
    ReturnedExactly(g, meta, additiveOrder, found, sets, s);
    if q, k :| q in found && 0 <= k <= |additiveOrder| && s == Stage(viable, additive, additiveOrder, q, k) {
      p := q;
    } else {
      p := AlwaysOf(g, meta);
    }
  }

  /** The enumerated sets are all returned, a returned set only gains additive features that were off,
      and every additive feature is on in some returned set, unless it is always on. */
  lemma ExtensionKeeps(g: Graph, meta: Metadata, additiveOrder: seq<string>, found: set<set<string>>, sets: set<set<string>>)
    requires Result(g, meta, additiveOrder, found, sets)
    ensures var viable, additive, always := ViableOf(g, meta), AdditiveOf(g, meta), AlwaysOf(g, meta);
            && found <= sets
            && (forall s :: s in sets ==>
                  exists p :: (p in found || p == always) && p <= viable.Keys && Gains(viable, additive, p, s))
            && (forall f :: Off(viable, additive, always, f) ==> always + {f} in sets)
  {
    var viable, additive, always := ViableOf(g, meta), AdditiveOf(g, meta), AlwaysOf(g, meta);
    forall p | p in found ensures p in sets {
      EnumeratedIsReturned(g, meta, additiveOrder, found, sets, p);
    }
    forall s | s in sets
      ensures exists p :: (p in found || p == always) && p <= viable.Keys && Gains(viable, additive, p, s)
    {
      var p := ReturnedGains(g, meta, additiveOrder, found, sets, s);
    }
    forall f | Off(viable, additive, always, f) ensures always + {f} in sets {
      ReturnedExactly(g, meta, additiveOrder, found, sets, always + {f});
    }
  }

  /** Nothing gets lost: after any prefix of the additive features, each of them that `p` left off is
      on, or one at the same place or later depends on it; and each member of `p` is on, or one of
      them depends on it. */
  lemma StageCovers(viable: Viable, additive: Viable, order: seq<string>, p: set<string>, k: nat)
    requires p <= viable.Keys && k <= |order|
    ensures var s := Stage(viable, additive, order, p, k);
            && (forall i :: 0 <= i < k && Off(viable, additive, p, order[i]) ==>
                  order[i] in s || exists j :: i <= j < k && Off(viable, additive, p, order[j]) && order[i] in additive[order[j]])
            && (forall x :: x in p ==>
                  x in s || exists j :: 0 <= j < k && Off(viable, additive, p, order[j]) && x in additive[order[j]])
  {
    var s := Stage(viable, additive, order, p, k);
    forall i | 0 <= i < k && Off(viable, additive, p, order[i]) && order[i] !in s
      ensures exists j :: i <= j < k && Off(viable, additive, p, order[j]) && order[i] in additive[order[j]]
    {
      assert !Stays(viable, additive, order, p, i, k, order[i]);
    }
    forall x | x in p && x !in s
      ensures exists j :: 0 <= j < k && Off(viable, additive, p, order[j]) && x in additive[order[j]]
    {
      assert !Stays(viable, additive, order, p, 0, k, x);
    }
  }

  /** Additive features without dependencies are simply added to `p`, those that it leaves off. */
  lemma StageWithoutDependencies(viable: Viable, additive: Viable, order: seq<string>, p: set<string>, k: nat)
    requires p <= viable.Keys && k <= |order| && forall f :: f in additive ==> additive[f] == {}
    ensures Stage(viable, additive, order, p, k) == p + set f | f in order[..k] && Off(viable, additive, p, f)
  {
    var s := Stage(viable, additive, order, p, k);
    forall x ensures x in s <==> x in p || (x in order[..k] && Off(viable, additive, p, x)) {
      assert Stays(viable, additive, order, p, 0, k, x);
      if x in order[..k] && Off(viable, additive, p, x) {
        var i :| 0 <= i < k && order[i] == x;
        assert Stays(viable, additive, order, p, i, k, x);
      }
    }
  }

  /** The lists are kept: every feature of a returned set exists, is on the allow list if there is
      one, and is not on the deny list. */
  lemma ListsAreKept(
    g: Graph, meta: Metadata, additiveOrder: seq<string>, found: set<set<string>>, sets: set<set<string>>, s: set<string>, f: string)
    requires Result(g, meta, additiveOrder, found, sets) && s in sets && f in s
    ensures f in g && (meta.allow == {} || f in meta.allow) && f !in meta.deny
  {
    ReturnedExactly(g, meta, additiveOrder, found, sets, s);
  }

  /** Every feature that the lists admit takes part: as viable or, if it is listed, as additive. */
  lemma ChosenExactly(g: Graph, meta: Metadata, f: string)
    ensures f in ViableOf(g, meta) <==>
              f in g && (meta.allow == {} || f in meta.allow) && f !in meta.deny && f !in meta.additive
    ensures f in AdditiveOf(g, meta) <==>
              f in g && (meta.allow == {} || f in meta.allow) && f !in meta.deny && f in meta.additive
  {
  }
}
