/** `test_package_features` of dev-tools/xtask/src/utils.rs. */
module PackageFeatures {
  // The model starts at the choice of the viable features: lists, additive features, the
  // enumeration and its extension by additive features.

  import opened Wrappers
  import opened Features
  import opened Permutations

  /** The package's settings, and the features that are always included. */
  datatype Metadata = Metadata(
    allow: set<string>, deny: set<string>, additive: set<string>, always: set<string>,
    skip: set<set<string>>, maxSize: Option<nat>)

  /** `Panic` is the map index `viable_features[f]`. */
  datatype Outcome = BothLists | Panic | Done(sets: set<set<string>>)

  predicate Chosen(meta: Metadata, f: string) {
    (meta.allow != {} ==> f in meta.allow) && (meta.deny != {} ==> f !in meta.deny)
  }

  /** The chosen features that are, or are not, additive, with their flattened dependencies. */
  ghost function ChosenFeatures(g: Graph, meta: Metadata, additive: bool): Viable {
    map f | f in g && Chosen(meta, f) && (f in meta.additive <==> additive) :: Closure(g, g[f])
  }

  ghost function ViableOf(g: Graph, meta: Metadata): Viable {
    ChosenFeatures(g, meta, false)
  }

  ghost function AdditiveOf(g: Graph, meta: Metadata): Viable {
    ChosenFeatures(g, meta, true)
  }

  function AlwaysOf(g: Graph, meta: Metadata): set<string> {
    set f | f in meta.always && f in g
  }

  ghost function SizeOf(g: Graph, meta: Metadata): nat {
    if meta.maxSize.Some? then meta.maxSize.value else |ViableOf(g, meta)| + 1
  }

  // ---------------------------------------------------------------- additive features

  /** The members of `s` and everything that they depend on. */
  function SwitchedOn(viable: Viable, s: set<string>): set<string>
    requires s <= viable.Keys
  {
    set f, d | f in s && d in viable[f] + {f} :: d
  }

  datatype Chain = Chain(current: set<string>, sets: set<set<string>>)

  /** `p`, and `p` with one additive feature after the other. */
  function ChainOf(additive: Viable, order: seq<string>, on: set<string>, p: set<string>): Chain {
    if order == [] then Chain(p, {p})
    else
      var n := |order| - 1;
      var c, f := ChainOf(additive, order[..n], on, p), order[n];
      if f !in additive || f in on then c
      else Chain(c.current + {f} - additive[f], c.sets + {c.current + {f} - additive[f]})
  }

  /** Every enumerated set with its chain. */
  ghost function Extended(viable: Viable, additive: Viable, order: seq<string>, found: set<set<string>>): set<set<string>>
    requires forall p :: p in found ==> p <= viable.Keys
  {
    set p, s | p in found && s in ChainOf(additive, order, SwitchedOn(viable, p), p).sets :: s
  }

  /** The always-included features with one additive feature each. */
  ghost function Singles(viable: Viable, additive: Viable, always: set<string>): set<set<string>>
    requires always <= viable.Keys
  {
    set f | f in additive && f !in SwitchedOn(viable, always) :: always + {f}
  }

  // ---------------------------------------------------------------- the whole function

  /** The loop that flattens and sorts the chosen features into viable and additive ones. */
  method Classify(g: Graph, meta: Metadata) returns (viable: Viable, additive: Viable)
    ensures viable == ViableOf(g, meta) && additive == AdditiveOf(g, meta)
  {
    viable, additive := map[], map[];
    var todo := g.Keys;
    while todo != {}
      invariant todo <= g.Keys
      invariant viable == map f | f in ViableOf(g, meta) && f !in todo :: ViableOf(g, meta)[f]
      invariant additive == map f | f in AdditiveOf(g, meta) && f !in todo :: AdditiveOf(g, meta)[f]
      decreases todo
    {
      var f :| f in todo;
      if Chosen(meta, f) {
        var flattened := FlattenFeatures(g[f], g);
        if f !in meta.additive {
          viable := viable[f := flattened];
        } else {
          additive := additive[f := flattened];
        }
      }
      todo := todo - {f};
    }
  }

  /** The loop over the additive features for one enumerated set. */
  method Extend(additive: Viable, order: seq<string>, on: set<string>, p: set<string>) returns (sets: set<set<string>>)
    ensures sets == ChainOf(additive, order, on, p).sets
  {
    var current := p;
    sets := {p};
    for i := 0 to |order|
      invariant Chain(current, sets) == ChainOf(additive, order[..i], on, p)
    {
      assert order[..i + 1][..i] == order[..i];
      if order[i] in additive && order[i] !in on {
        current := current + {order[i]} - additive[order[i]];
        sets := sets + {current};
      }
    }
    assert order[..|order|] == order;
  }

  method ExtendAll(viable: Viable, additive: Viable, order: seq<string>, found: set<set<string>>) returns (sets: set<set<string>>)
    requires forall p :: p in found ==> p <= viable.Keys
    ensures sets == Extended(viable, additive, order, found)
  {
    sets := {};
    var todo := found;
    while todo != {}
      invariant todo <= found && sets == Extended(viable, additive, order, found - todo)
      decreases todo
    {
      var p :| p in todo;
      var chain := Extend(additive, order, SwitchedOn(viable, p), p);
      assert found - (todo - {p}) == (found - todo) + {p};
      sets, todo := sets + chain, todo - {p};
    }
    assert found - {} == found;
  }

  /** What the whole function promises, given the enumeration `found`. */
  ghost predicate Result(g: Graph, meta: Metadata, additiveOrder: seq<string>, found: set<set<string>>, sets: set<set<string>>) {
    var viable, additive, always := ViableOf(g, meta), AdditiveOf(g, meta), AlwaysOf(g, meta);
    && always <= viable.Keys && (forall p :: p in found ==> p <= viable.Keys)
    && Enumerated(always, SizeOf(g, meta), viable, meta.skip, Some(found))
    && sets == Extended(viable, additive, additiveOrder, found) + Singles(viable, additive, always)
  }

  lemma ResultHolds(
    g: Graph, meta: Metadata, viable: Viable, additive: Viable, always: set<string>, additiveOrder: seq<string>,
    found: set<set<string>>, sets: set<set<string>>)
    requires viable == ViableOf(g, meta) && additive == AdditiveOf(g, meta) && always == AlwaysOf(g, meta) && always <= viable.Keys
    requires Enumerated(always, SizeOf(g, meta), viable, meta.skip, Some(found)) && forall p :: p in found ==> p <= viable.Keys
    requires sets == Extended(viable, additive, additiveOrder, found) + Singles(viable, additive, always)
    ensures Result(g, meta, additiveOrder, found, sets)
  {
  }

  /** `order` and `additiveOrder` are the iteration orders of the two maps. */
  method TestPackageFeatures(g: Graph, meta: Metadata, order: seq<string>, additiveOrder: seq<string>) returns (r: Outcome)
    requires IsOrder(ViableOf(g, meta), order) && IsOrder(AdditiveOf(g, meta), additiveOrder)
    ensures r.BothLists? <==> meta.allow != {} && meta.deny != {}
    ensures r.Panic? <==> !r.BothLists? && !(AlwaysOf(g, meta) <= ViableOf(g, meta).Keys)
    ensures r.Done? ==> exists found :: Result(g, meta, additiveOrder, found, r.sets)
  {
    if meta.allow != {} && meta.deny != {} {
      return BothLists;
    }
    var viable, additive := Classify(g, meta);
    var always := AlwaysOf(g, meta);
    if !(always <= viable.Keys) {
      return Panic;
    }
    var found, sets := EnumerateChosen(g, meta, viable, additive, always, order, additiveOrder);
    r := Done(sets);
  }

  method EnumerateChosen(
    ghost g: Graph, meta: Metadata, viable: Viable, additive: Viable, always: set<string>,
    order: seq<string>, additiveOrder: seq<string>) returns (found: set<set<string>>, sets: set<set<string>>)
    requires viable == ViableOf(g, meta) && additive == AdditiveOf(g, meta) && always == AlwaysOf(g, meta)
    requires IsOrder(viable, order) && always <= viable.Keys
    ensures Result(g, meta, additiveOrder, found, sets)
  {
    var size := if meta.maxSize.Some? then meta.maxSize.value else |viable| + 1;
    found, sets := EnumerateAndExtend(viable, additive, always, size, meta.skip, order, additiveOrder);
    ResultHolds(g, meta, viable, additive, always, additiveOrder, found, sets);
  }

  method EnumerateAndExtend(
    viable: Viable, additive: Viable, always: set<string>, size: nat, skip: set<set<string>>,
    order: seq<string>, additiveOrder: seq<string>) returns (found: set<set<string>>, sets: set<set<string>>)
    requires IsOrder(viable, order) && always <= viable.Keys
    ensures Enumerated(always, size, viable, skip, Some(found)) && forall p :: p in found ==> p <= viable.Keys
    ensures sets == Extended(viable, additive, additiveOrder, found) + Singles(viable, additive, always)
  {
    var enumerated := FindPermutations(always, size, viable, order, skip);
    found := enumerated.value;
    sets := ExtendAll(viable, additive, additiveOrder, found);
    sets := sets + set f | f in additive && f !in SwitchedOn(viable, always) :: always + {f};
  }

  // ---------------------------------------------------------------- exactness

  /** The dependency sets that are stored are transitively closed. */
  lemma ViableIsClosed(g: Graph, meta: Metadata)
    ensures TransitivelyClosed(ViableOf(g, meta))
  {
    var viable := ViableOf(g, meta);
    forall f, d | f in viable && d in viable[f] && d in viable ensures viable[d] <= viable[f] {
      FlattenedIsTransitive(g, f, d);
    }
  }

  /** No chosen feature leads back to itself. */
  ghost predicate AcyclicPackage(g: Graph, meta: Metadata) {
    forall f :: f in g && Chosen(meta, f) && f !in meta.additive ==> f !in Closure(g, g[f])
  }

  /** With nothing always included and the default size, the enumeration is exactly the sets of
      viable features in which no member leads to another and no skip set is contained, if no
      viable feature leads back to itself; it is not if one does that no skip set excludes. */
  lemma PackageIsExact(g: Graph, meta: Metadata, additiveOrder: seq<string>, found: set<set<string>>, sets: set<set<string>>)
    requires Result(g, meta, additiveOrder, found, sets) && AlwaysOf(g, meta) == {} && meta.maxSize.None?
    ensures AcyclicPackage(g, meta) ==> found == Wanted(ViableOf(g, meta), meta.skip)
    ensures !SelfSkipped(ViableOf(g, meta), meta.skip) ==> found != Wanted(ViableOf(g, meta), meta.skip)
  {
    ViableIsClosed(g, meta);
    DefaultSizeDecided(ViableOf(g, meta), meta.skip, SizeOf(g, meta), Some(found));
  }

  /** With features always included, no skip sets and the default size: exactly the independent sets
      that switch them on. */
  lemma PackageStartIsExact(g: Graph, meta: Metadata, additiveOrder: seq<string>, found: set<set<string>>, sets: set<set<string>>)
    requires Result(g, meta, additiveOrder, found, sets) && meta.skip == {} && meta.maxSize.None?
    requires AcyclicPackage(g, meta) && Independent(ViableOf(g, meta), AlwaysOf(g, meta))
    ensures forall s :: s in found <==>
              Independent(ViableOf(g, meta), s) && AlwaysOf(g, meta) <= Flattened(ViableOf(g, meta), s)
  {
    ViableIsClosed(g, meta);
    StartIsExact(ViableOf(g, meta), AlwaysOf(g, meta), SizeOf(g, meta), Some(found));
  }
}
