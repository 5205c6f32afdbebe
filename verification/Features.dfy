/** The features reachable from some others. */
module Features {
  // This is `flatten_features` of dev-tools/xtask/src/utils.rs.

  // ---------------------------------------------------------------- reachability

  /** `package_features`: what each feature of the package enables. */
  type Graph = map<string, seq<string>>

  ghost predicate IsPath(g: Graph, p: seq<string>) {
    && p != []
    && (forall i :: 0 <= i < |p| ==> p[i] in g)
    && (forall i :: 0 < i < |p| ==> p[i] in g[p[i - 1]])
  }

  ghost predicate PathFrom(g: Graph, roots: seq<string>, p: seq<string>, f: string) {
    IsPath(g, p) && p[0] in roots && p[|p| - 1] == f
  }

  /** The package features that some path of package features leads to from `roots`. */
  ghost function Closure(g: Graph, roots: seq<string>): set<string> {
    set f | f in g && exists p :: PathFrom(g, roots, p, f)
  }

  lemma ExtendPath(g: Graph, roots: seq<string>, f: string, d: string)
    requires f in Closure(g, roots) && d in g && d in g[f]
    ensures d in Closure(g, roots)
  {
    var p :| PathFrom(g, roots, p, f);
    assert PathFrom(g, roots, p + [d], d);
  }

  /** `s` holds the package features among `roots` and is closed under edges, except for what
      still waits in `next`. */
  ghost predicate ClosedUpTo(g: Graph, roots: seq<string>, s: set<string>, next: seq<string>) {
    && (forall d :: d in roots && d in g ==> d in s || d in next)
    && (forall e, d :: e in s && e in g && d in g[e] && d in g ==> d in s || d in next)
  }

  /** `d` belongs to every closed set. */
  ghost predicate Forced(g: Graph, roots: seq<string>, d: string) {
    forall s :: ClosedUpTo(g, roots, s, []) ==> d in s
  }

  /** A closed set holds the end of every path from the roots. */
  lemma {:induction false} ClosedHoldsPath(g: Graph, roots: seq<string>, s: set<string>, p: seq<string>, f: string)
    requires ClosedUpTo(g, roots, s, [])
    requires PathFrom(g, roots, p, f)
    ensures f in s
  {
    if |p| > 1 {
      var q := p[..|p| - 1];
      assert PathFrom(g, roots, q, q[|q| - 1]);
      ClosedHoldsPath(g, roots, s, q, q[|q| - 1]);
      assert p[|p| - 1] in g[p[|p| - 2]];
    }
  }

  lemma ClosureIsClosed(g: Graph, roots: seq<string>)
    ensures ClosedUpTo(g, roots, Closure(g, roots), [])
  {
    forall d | d in roots && d in g ensures d in Closure(g, roots) {
      assert PathFrom(g, roots, [d], d);
    }
    forall e, d | e in Closure(g, roots) && d in g[e] && d in g ensures d in Closure(g, roots) {
      ExtendPath(g, roots, e, d);
    }
  }

  /** The least closed set is the closure. */
  lemma LeastIsClosure(g: Graph, roots: seq<string>, s: set<string>)
    requires ClosedUpTo(g, roots, s, []) && forall d :: d in s ==> Forced(g, roots, d)
    ensures s == Closure(g, roots)
  {
    ClosureIsClosed(g, roots);
    forall f | f in Closure(g, roots) ensures f in s {
      var p :| PathFrom(g, roots, p, f);
      ClosedHoldsPath(g, roots, s, p, f);
    }
  }

  /** Termination: what is still to be recorded shrinks. */
  lemma RecordShrinks<T>(all: set<T>, done: set<T>, x: T)
    requires x in all && x !in done
    ensures |all - (done + {x})| < |all - done|
  {
    assert all - (done + {x}) == (all - done) - {x};
  }

  /** Popping a dependency keeps the closure property, once the dependency is dealt with. */
  lemma PopClosed(g: Graph, roots: seq<string>, s: set<string>, next: seq<string>)
    requires next != [] && ClosedUpTo(g, roots, s, next)
    ensures var dep, rest := next[|next| - 1], next[..|next| - 1];
            if dep !in g || dep in s then ClosedUpTo(g, roots, s, rest)
            else ClosedUpTo(g, roots, s + {dep}, rest + g[dep])
  {
    assert next == next[..|next| - 1] + [next[|next| - 1]];
  }

  /** `flatten_features`.  It returns exactly the closure, on cyclic graphs too. */
  method FlattenFeatures(deps: seq<string>, g: Graph) returns (features: set<string>)
    ensures features == Closure(g, deps)
  {
    var next := deps;
    features := {};
    while next != []
      invariant forall d :: d in features ==> Forced(g, deps, d)
      invariant forall d :: d in next && d in g ==> Forced(g, deps, d)
      invariant ClosedUpTo(g, deps, features, next)
      decreases |g.Keys - features|, |next|
    {
      var dep, rest := next[|next| - 1], next[..|next| - 1];
      assert next == rest + [dep];
      PopClosed(g, deps, features, next);
      if dep in g && dep !in features {
        RecordShrinks(g.Keys, features, dep);
        features, next := features + {dep}, rest + g[dep];
      } else {
        next := rest;
      }
    }
    LeastIsClosure(g, deps, features);
  }

  /** The dependency sets that `test_package_features` stores are transitively closed. */
  lemma FlattenedIsTransitive(g: Graph, f: string, d: string)
    requires f in g && d in Closure(g, g[f])
    ensures Closure(g, g[d]) <= Closure(g, g[f])
  {
    forall e | e in Closure(g, g[d]) ensures e in Closure(g, g[f]) {
      var p :| PathFrom(g, g[f], p, d);
      var q :| PathFrom(g, g[d], q, e);
      assert PathFrom(g, g[f], p + q, e);
    }
  }
}
