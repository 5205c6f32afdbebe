/** Two inputs on which `find_permutations` misses sets, followed through the loop in the order of
    the map: one for a size limit below the number of features, one for self-dependent features
    that skip sets exclude.  The second search is followed on sets that are coded as
    numbers, so that each turn of its loop is a computation. */
module PermutationExamples {
  import opened Wrappers
  import opened Permutations

  // ---------------------------------------------------------------- a small size limit

  const SHARED: Viable := map["a" := {"c"}, "b" := {"c"}, "c" := {}]
  const SHARED_ORDER := ["a", "b", "c"]

  lemma PushThree(viable: Viable, a: string, b: string, c: string, skip: set<set<string>>, found: set<set<string>>, e: Entry)
    ensures PushAll(viable, [a, b, c], skip, found, e)
         == PushOne(viable, skip, found, e, a) + PushOne(viable, skip, found, e, b) + PushOne(viable, skip, found, e, c)
  {
    assert [a, b, c][..2] == [a, b] && [a, b][..1] == [a] && [a][..0] == [];
    assert PushAll(viable, [a], skip, found, e) == [] + PushOne(viable, skip, found, e, a);
    assert PushAll(viable, [a, b], skip, found, e)
        == PushAll(viable, [a], skip, found, e) + PushOne(viable, skip, found, e, b);
  }

  lemma SharedPushes(found: set<set<string>>, e: Entry, pushed: seq<Entry>)
    requires e.rem > 0
    requires pushed == PushOne(SHARED, {}, found, e, "a") + PushOne(SHARED, {}, found, e, "b") + PushOne(SHARED, {}, found, e, "c")
    ensures PushAll(SHARED, SHARED_ORDER, {}, found, e) == pushed
  {
    PushThree(SHARED, "a", "b", "c", {}, found, e);
  }

  lemma FirstTurn()
    ensures Step(SHARED, SHARED_ORDER, {}, Search({}, [Entry({}, 2)]))
         == Search({{}}, [Entry({"a"}, 1), Entry({"b"}, 1), Entry({"c"}, 1)])
  {
    var e := Entry({}, 2);
    assert Flattened(SHARED, {}) == {};
    assert Successor(SHARED, {}, "a") == {"a"} && Successor(SHARED, {}, "b") == {"b"} && Successor(SHARED, {}, "c") == {"c"};
    assert "a" in {"a"} && "b" in {"b"} && "c" in {"c"};
    var none: set<set<string>>, empty: set<string> := {}, {};
    assert none + {empty} == {empty};
    assert PushOne(SHARED, {}, {{}}, e, "a") == [Entry({"a"}, 1)];
    assert PushOne(SHARED, {}, {{}}, e, "b") == [Entry({"b"}, 1)];
    assert PushOne(SHARED, {}, {{}}, e, "c") == [Entry({"c"}, 1)];
    SharedPushes({{}}, e, [Entry({"a"}, 1), Entry({"b"}, 1), Entry({"c"}, 1)]);
  }

  lemma SecondTurn()
    ensures Step(SHARED, SHARED_ORDER, {}, Search({{}}, [Entry({"a"}, 1), Entry({"b"}, 1), Entry({"c"}, 1)]))
         == Search({{}, {"c"}}, [Entry({"a"}, 1), Entry({"b"}, 1), Entry({"a"}, 0), Entry({"b"}, 0)])
  {
    var e := Entry({"c"}, 1);
    assert "a" in {"a"} && "b" in {"b"} && "c" in {"c"};
    assert Flattened(SHARED, {"c"}) == {"c"};
    assert Successor(SHARED, {"c"}, "a") == {"a"} && Successor(SHARED, {"c"}, "b") == {"b"};
    assert {"a"} != {"c"} && {"b"} != {"c"};
    assert {{}} + {{"c"}} == {{}, {"c"}};
    assert PushOne(SHARED, {}, {{}, {"c"}}, e, "a") == [Entry({"a"}, 0)];
    assert PushOne(SHARED, {}, {{}, {"c"}}, e, "b") == [Entry({"b"}, 0)];
    assert PushOne(SHARED, {}, {{}, {"c"}}, e, "c") == [];
    SharedPushes({{}, {"c"}}, e, [Entry({"a"}, 0), Entry({"b"}, 0)]);
  }

  lemma OtherTurns()
    ensures var found := {{}, {"c"}, {"b"}, {"a"}};
            var a, b := Entry({"a"}, 1), Entry({"b"}, 1);
            && Step(SHARED, SHARED_ORDER, {}, Search({{}, {"c"}}, [a, b, Entry({"a"}, 0), Entry({"b"}, 0)]))
               == Search({{}, {"c"}, {"b"}}, [a, b, Entry({"a"}, 0)])
            && Step(SHARED, SHARED_ORDER, {}, Search({{}, {"c"}, {"b"}}, [a, b, Entry({"a"}, 0)])) == Search(found, [a, b])
            && Step(SHARED, SHARED_ORDER, {}, Search(found, [a, b])) == Search(found, [a])
            && Step(SHARED, SHARED_ORDER, {}, Search(found, [a])) == Search(found, [])
  {
    assert "a" in {"a"} && "b" in {"b"} && "c" in {"c"};
    assert {"b"} != {"c"} && {"a"} != {"c"} && {"a"} != {"b"};
    NothingPushed(SHARED, SHARED_ORDER, {}, {{}, {"c"}, {"b"}}, Entry({"b"}, 0));
    NothingPushed(SHARED, SHARED_ORDER, {}, {{}, {"c"}, {"b"}, {"a"}}, Entry({"a"}, 0));
    assert {{}, {"c"}} + {{"b"}} == {{}, {"c"}, {"b"}};
    assert {{}, {"c"}, {"b"}} + {{"a"}} == {{}, {"c"}, {"b"}, {"a"}};
  }

  /** With the size limit 2, an independent set of two features is missed: both of its members are
      first met, and recorded for good, by way of the dependency that they share, when nothing is
      left of the limit. */
  lemma SmallLimitMissesASet(result: set<set<string>>)
    requires Yields(SHARED, SHARED_ORDER, {}, Search({}, [Entry({}, 2)]), result)
    ensures {"a", "b"} in Wanted(SHARED, {}) && |{"a", "b"}| == 2 && {"a", "b"} !in result
  {
    var found := {{}, {"c"}, {"b"}, {"a"}};
    var a, b := Entry({"a"}, 1), Entry({"b"}, 1);
    FirstTurn();
    SecondTurn();
    OtherTurns();
    YieldsStep(SHARED, SHARED_ORDER, {}, Search({}, [Entry({}, 2)]), result);
    YieldsStep(SHARED, SHARED_ORDER, {}, Search({{}}, [a, b, Entry({"c"}, 1)]), result);
    YieldsStep(SHARED, SHARED_ORDER, {}, Search({{}, {"c"}}, [a, b, Entry({"a"}, 0), Entry({"b"}, 0)]), result);
    YieldsStep(SHARED, SHARED_ORDER, {}, Search({{}, {"c"}, {"b"}}, [a, b, Entry({"a"}, 0)]), result);
    YieldsStep(SHARED, SHARED_ORDER, {}, Search(found, [a, b]), result);
    YieldsStep(SHARED, SHARED_ORDER, {}, Search(found, [a]), result);
    YieldsEnd(SHARED, SHARED_ORDER, {}, Search(found, []), result);
    NotFound();
  }

  lemma NotFound()
    ensures {"a", "b"} in Wanted(SHARED, {}) && |{"a", "b"}| == 2 && {"a", "b"} !in {{}, {"c"}, {"b"}, {"a"}}
  {
    assert "a" in {"a", "b"} && "b" in {"a", "b"} && "a" != "b";
    assert "b" !in {"a"} && "a" !in {"b"};
    assert SHARED["a"] == {"c"} && SHARED["b"] == {"c"} && "a" != "c" && "b" != "c";
    assert Independent(SHARED, {"a", "b"});
  }

  // ---------------------------------------------------------------- excluded self-dependent features

  /** The features `a` and `b` depend on themselves; each switches others off on its way out. */
  const LOOPED: Viable := map["a" := {"a", "d", "e", "f"}, "b" := {"b", "c"}, "c" := {}, "d" := {}, "e" := {}, "f" := {}]
  const LOOPED_ORDER := ["a", "b", "c", "d", "e", "f"]
  const LOOPED_SKIP: set<set<string>> := {{"a"}, {"b"}}

  /** A set of the features `c` to `f`, as a number of four bits. */
  function Named(n: nat): set<string> {
    (if n % 2 == 1 then {"c"} else {}) + (if n / 2 % 2 == 1 then {"d"} else {})
    + (if n / 4 % 2 == 1 then {"e"} else {}) + (if n / 8 % 2 == 1 then {"f"} else {})
  }

  lemma NamedMembers(n: nat)
    ensures "a" !in Named(n) && "b" !in Named(n)
    ensures "c" in Named(n) <==> n % 2 == 1
    ensures "d" in Named(n) <==> n / 2 % 2 == 1
    ensures "e" in Named(n) <==> n / 4 % 2 == 1
    ensures "f" in Named(n) <==> n / 8 % 2 == 1
    ensures Named(n) <= {"c", "d", "e", "f"}
  {
  }

  lemma NamedInjective(n: nat, m: nat)
    requires n < 16 && m < 16 && Named(n) == Named(m)
    ensures n == m
  {
    NamedMembers(n);
    NamedMembers(m);
    Digits(n);
    Digits(m);
  }

  lemma Digits(n: nat)
    requires n < 16
    ensures n == n % 2 + 2 * (n / 2 % 2) + 4 * (n / 4 % 2) + 8 * (n / 8 % 2)
  {
  }

  /** What becomes of the set `n` when the loop adds feature `x` of the order; a feature that is in
      the set leaves it as it is, and so pushes nothing. */
  function Sum(n: nat, x: nat): nat {
    match x
    case 0 => n % 2
    case 1 => n - n % 2
    case 2 => if n % 2 == 0 then n + 1 else n
    case 3 => if n / 2 % 2 == 0 then n + 2 else n
    case 4 => if n / 4 % 2 == 0 then n + 4 else n
    case _ => if n / 8 % 2 == 0 then n + 8 else n
  }

  lemma SumDigits(n: nat, x: nat)
    requires n < 16 && x < 6
    ensures var m := Sum(n, x);
            && m < 16
            && m % 2 == (if x == 1 then 0 else if x == 2 then 1 else n % 2)
            && m / 2 % 2 == (if x == 0 then 0 else if x == 3 then 1 else n / 2 % 2)
            && m / 4 % 2 == (if x == 0 then 0 else if x == 4 then 1 else n / 4 % 2)
            && m / 8 % 2 == (if x == 0 then 0 else if x == 5 then 1 else n / 8 % 2)
  {
    Digits(n);
  }

  lemma FlattenedNamed(n: nat)
    ensures Flattened(LOOPED, Named(n)) == Named(n)
  {
    NamedMembers(n);
  }

  lemma SumNamed(n: nat, x: nat)
    requires n < 16 && x < 6
    ensures LOOPED_ORDER[x] in Named(n) ==> Sum(n, x) == n
    ensures LOOPED_ORDER[x] !in Named(n) ==> Successor(LOOPED, Named(n), LOOPED_ORDER[x]) == Named(Sum(n, x))
  {
    NamedMembers(n);
    NamedMembers(Sum(n, x));
    SumDigits(n, x);
    var next := Successor(LOOPED, Named(n), LOOPED_ORDER[x]);
    assert next <= {"c", "d", "e", "f"};
    assert "c" in next <==> "c" in Named(Sum(n, x));
    assert "d" in next <==> "d" in Named(Sum(n, x));
    assert "e" in next <==> "e" in Named(Sum(n, x));
    assert "f" in next <==> "f" in Named(Sum(n, x));
  }

  // ---------------------------------------------------------------- the search on numbers

  /** A stack of sets that are written as numbers. */
  datatype Stack = Nil | Push(n: nat, rem: nat, below: Stack)

  datatype Coded = Coded(found: set<nat>, stack: Stack)

  predicate SmallStack(stack: Stack) {
    stack.Push? ==> stack.n < 16 && SmallStack(stack.below)
  }

  predicate Small(s: Coded) {
    (forall n :: n in s.found ==> n < 16) && SmallStack(s.stack)
  }

  function NamedAll(found: set<nat>): set<set<string>> {
    set n | n in found :: Named(n)
  }

  function Entries(stack: Stack): seq<Entry> {
    if stack.Nil? then [] else Entries(stack.below) + [Entry(Named(stack.n), stack.rem)]
  }

  function Decoded(s: Coded): Search {
    Search(NamedAll(s.found), Entries(s.stack))
  }

  function CodedPush(found: set<nat>, n: nat, rem: nat, x: nat, stack: Stack): Stack {
    if rem == 0 || Sum(n, x) in found then stack else Push(Sum(n, x), rem - 1, stack)
  }

  /** The pushes for the first `x` features. */
  function CodedPushes(found: set<nat>, n: nat, rem: nat, x: nat, stack: Stack): Stack
    decreases x
  {
    if x == 0 then stack else CodedPush(found, n, rem, x - 1, CodedPushes(found, n, rem, x - 1, stack))
  }

  function CodedStep(s: Coded): Coded
    requires s.stack.Push?
  {
    if s.stack.n in s.found then Coded(s.found, s.stack.below)
    else
      var found := s.found + {s.stack.n};
      Coded(found, CodedPushes(found, s.stack.n, s.stack.rem, 6, s.stack.below))
  }

  lemma NamedFound(found: set<nat>, n: nat)
    requires n < 16 && forall m :: m in found ==> m < 16
    ensures Named(n) in NamedAll(found) <==> n in found
    ensures !Skipped(LOOPED_SKIP, Named(n)) && Named(n) !in LOOPED_SKIP
  {
    NamedMembers(n);
    if m :| m in found && Named(m) == Named(n) {
      NamedInjective(m, n);
    }
    assert forall k :: k in LOOPED_SKIP ==> "a" in k || "b" in k;
  }

  lemma PushIsCoded(found: set<nat>, n: nat, rem: nat, x: nat, stack: Stack)
    requires n in found && x < 6 && forall m :: m in found ==> m < 16
    ensures Entries(CodedPush(found, n, rem, x, stack))
         == Entries(stack) + PushOne(LOOPED, LOOPED_SKIP, NamedAll(found), Entry(Named(n), rem), LOOPED_ORDER[x])
  {
    FlattenedNamed(n);
    SumNamed(n, x);
    SumDigits(n, x);
    NamedFound(found, Sum(n, x));
  }

  lemma OneMorePush(found: set<set<string>>, e: Entry, x: nat)
    requires 0 < x <= 6
    ensures PushAll(LOOPED, LOOPED_ORDER[..x], LOOPED_SKIP, found, e)
         == PushAll(LOOPED, LOOPED_ORDER[..x - 1], LOOPED_SKIP, found, e)
            + PushOne(LOOPED, LOOPED_SKIP, found, e, LOOPED_ORDER[x - 1])
  {
    assert LOOPED_ORDER[..x][..x - 1] == LOOPED_ORDER[..x - 1];
  }

  lemma Associates(a: seq<Entry>, b: seq<Entry>, c: seq<Entry>)
    ensures (a + b) + c == a + (b + c)
  {
  }

  lemma {:induction false} PushesAreCoded(found: set<nat>, n: nat, rem: nat, x: nat, stack: Stack)
    requires n in found && x <= 6 && (forall m :: m in found ==> m < 16) && SmallStack(stack)
    ensures SmallStack(CodedPushes(found, n, rem, x, stack))
    ensures Entries(CodedPushes(found, n, rem, x, stack))
         == Entries(stack) + PushAll(LOOPED, LOOPED_ORDER[..x], LOOPED_SKIP, NamedAll(found), Entry(Named(n), rem))
  {
    if x > 0 {
      var less := CodedPushes(found, n, rem, x - 1, stack);
      PushesAreCoded(found, n, rem, x - 1, stack);
      PushIsCoded(found, n, rem, x - 1, less);
      SumDigits(n, x - 1);
      OneMorePush(NamedAll(found), Entry(Named(n), rem), x);
      Associates(Entries(stack), PushAll(LOOPED, LOOPED_ORDER[..x - 1], LOOPED_SKIP, NamedAll(found), Entry(Named(n), rem)),
                 PushOne(LOOPED, LOOPED_SKIP, NamedAll(found), Entry(Named(n), rem), LOOPED_ORDER[x - 1]));
    }
  }

  /** The search on numbers is the search on sets. */
  lemma StepIsCoded(s: Coded)
    requires s.stack.Push? && Small(s)
    ensures Small(CodedStep(s)) && Step(LOOPED, LOOPED_ORDER, LOOPED_SKIP, Decoded(s)) == Decoded(CodedStep(s))
  {
    var n, rem, below := s.stack.n, s.stack.rem, s.stack.below;
    NamedFound(s.found, n);
    assert Decoded(s).stack[..|Decoded(s).stack| - 1] == Entries(below);
    if n !in s.found {
      var found := s.found + {n};
      assert NamedAll(found) == NamedAll(s.found) + {Named(n)};
      assert LOOPED_ORDER[..6] == LOOPED_ORDER;
      PushesAreCoded(found, n, rem, 6, below);
    }
  }

  function CodedRun(s: Coded, k: nat): Coded
    decreases k, s
  {
    if k == 0 || s.stack.Nil? then s else CodedRun(CodedStep(s), k - 1)
  }

  lemma {:induction false} RunIsCoded(s: Coded, k: nat, result: set<set<string>>)
    requires Small(s)
    ensures Small(CodedRun(s, k))
    ensures Yields(LOOPED, LOOPED_ORDER, LOOPED_SKIP, Decoded(s), result)
       <==> Yields(LOOPED, LOOPED_ORDER, LOOPED_SKIP, Decoded(CodedRun(s, k)), result)
    decreases k
  {
    if k > 0 && s.stack.Push? {
      StepIsCoded(s);
      YieldsStep(LOOPED, LOOPED_ORDER, LOOPED_SKIP, Decoded(s), result);
      RunIsCoded(CodedStep(s), k - 1, result);
    }
  }

  lemma FirstTurns()
    ensures CodedRun(Coded({}, Push(0, 7, Nil)), 4)
         == Coded({0, 8, 12, 14}, Push(15, 3, Push(13, 4, Push(10, 5, Push(9, 5, Push(4, 6, Push(2, 6, Push(1, 6, Nil))))))))
  {
    var s0 := Coded({}, Push(0, 7, Nil));
    var s1 := Coded({0}, Push(8, 6, Push(4, 6, Push(2, 6, Push(1, 6, Nil)))));
    var s2 := Coded({0, 8}, Push(12, 5, Push(10, 5, Push(9, 5, Push(4, 6, Push(2, 6, Push(1, 6, Nil)))))));
    var s3 := Coded({0, 8, 12}, Push(14, 4, Push(13, 4, Push(10, 5, Push(9, 5, Push(4, 6, Push(2, 6, Push(1, 6, Nil))))))));
    var s4 := Coded({0, 8, 12, 14}, Push(15, 3, Push(13, 4, Push(10, 5, Push(9, 5, Push(4, 6, Push(2, 6, Push(1, 6, Nil))))))));
    assert CodedStep(s0) == s1;
    assert CodedStep(s1) == s2;
    assert CodedStep(s2) == s3;
    assert CodedStep(s3) == s4;
    assert CodedRun(s3, 1) == CodedRun(s4, 0) && CodedRun(s2, 2) == CodedRun(s3, 1) && CodedRun(s1, 3) == CodedRun(s2, 2);
  }

  lemma SecondTurns()
    ensures CodedRun(Coded({0, 8, 12, 14}, Push(15, 3, Push(13, 4, Push(10, 5, Push(9, 5, Push(4, 6, Push(2, 6, Push(1, 6, Nil)))))))), 4)
         == Coded({0, 8, 12, 14, 15, 1, 9, 13}, Push(11, 0, Push(5, 1, Push(3, 1, Push(13, 4, Push(10, 5, Push(9, 5, Push(4, 6, Push(2, 6, Push(1, 6, Nil))))))))))
  {
    var s0 := Coded({0, 8, 12, 14}, Push(15, 3, Push(13, 4, Push(10, 5, Push(9, 5, Push(4, 6, Push(2, 6, Push(1, 6, Nil))))))));
    var s1 := Coded({0, 8, 12, 14, 15}, Push(1, 2, Push(13, 4, Push(10, 5, Push(9, 5, Push(4, 6, Push(2, 6, Push(1, 6, Nil))))))));
    var s2 := Coded({0, 8, 12, 14, 15, 1}, Push(9, 1, Push(5, 1, Push(3, 1, Push(13, 4, Push(10, 5, Push(9, 5, Push(4, 6, Push(2, 6, Push(1, 6, Nil))))))))));
    var s3 := Coded({0, 8, 12, 14, 15, 1, 9}, Push(13, 0, Push(11, 0, Push(5, 1, Push(3, 1, Push(13, 4, Push(10, 5, Push(9, 5, Push(4, 6, Push(2, 6, Push(1, 6, Nil)))))))))));
    var s4 := Coded({0, 8, 12, 14, 15, 1, 9, 13}, Push(11, 0, Push(5, 1, Push(3, 1, Push(13, 4, Push(10, 5, Push(9, 5, Push(4, 6, Push(2, 6, Push(1, 6, Nil))))))))));
    assert CodedStep(s0) == s1;
    assert CodedStep(s1) == s2;
    assert CodedStep(s2) == s3;
    assert CodedStep(s3) == s4;
    assert CodedRun(s3, 1) == CodedRun(s4, 0) && CodedRun(s2, 2) == CodedRun(s3, 1) && CodedRun(s1, 3) == CodedRun(s2, 2);
  }

  lemma ThirdTurns()
    ensures CodedRun(Coded({0, 8, 12, 14, 15, 1, 9, 13}, Push(11, 0, Push(5, 1, Push(3, 1, Push(13, 4, Push(10, 5, Push(9, 5, Push(4, 6, Push(2, 6, Push(1, 6, Nil)))))))))), 4)
         == Coded({0, 8, 12, 14, 15, 1, 9, 13, 11, 5, 7, 4}, Push(3, 1, Push(13, 4, Push(10, 5, Push(9, 5, Push(4, 6, Push(2, 6, Push(1, 6, Nil))))))))
  {
    var s0 := Coded({0, 8, 12, 14, 15, 1, 9, 13}, Push(11, 0, Push(5, 1, Push(3, 1, Push(13, 4, Push(10, 5, Push(9, 5, Push(4, 6, Push(2, 6, Push(1, 6, Nil))))))))));
    var s1 := Coded({0, 8, 12, 14, 15, 1, 9, 13, 11}, Push(5, 1, Push(3, 1, Push(13, 4, Push(10, 5, Push(9, 5, Push(4, 6, Push(2, 6, Push(1, 6, Nil)))))))));
    var s2 := Coded({0, 8, 12, 14, 15, 1, 9, 13, 11, 5}, Push(7, 0, Push(4, 0, Push(3, 1, Push(13, 4, Push(10, 5, Push(9, 5, Push(4, 6, Push(2, 6, Push(1, 6, Nil))))))))));
    var s3 := Coded({0, 8, 12, 14, 15, 1, 9, 13, 11, 5, 7}, Push(4, 0, Push(3, 1, Push(13, 4, Push(10, 5, Push(9, 5, Push(4, 6, Push(2, 6, Push(1, 6, Nil)))))))));
    var s4 := Coded({0, 8, 12, 14, 15, 1, 9, 13, 11, 5, 7, 4}, Push(3, 1, Push(13, 4, Push(10, 5, Push(9, 5, Push(4, 6, Push(2, 6, Push(1, 6, Nil))))))));
    assert CodedStep(s0) == s1;
    assert CodedStep(s1) == s2;
    assert CodedStep(s2) == s3;
    assert CodedStep(s3) == s4;
    assert CodedRun(s3, 1) == CodedRun(s4, 0) && CodedRun(s2, 2) == CodedRun(s3, 1) && CodedRun(s1, 3) == CodedRun(s2, 2);
  }

  lemma FourthTurns()
    ensures CodedRun(Coded({0, 8, 12, 14, 15, 1, 9, 13, 11, 5, 7, 4}, Push(3, 1, Push(13, 4, Push(10, 5, Push(9, 5, Push(4, 6, Push(2, 6, Push(1, 6, Nil)))))))), 4)
         == Coded({0, 8, 12, 14, 15, 1, 9, 13, 11, 5, 7, 4, 3, 2, 10}, Push(9, 5, Push(4, 6, Push(2, 6, Push(1, 6, Nil)))))
  {
    var s0 := Coded({0, 8, 12, 14, 15, 1, 9, 13, 11, 5, 7, 4}, Push(3, 1, Push(13, 4, Push(10, 5, Push(9, 5, Push(4, 6, Push(2, 6, Push(1, 6, Nil))))))));
    var s1 := Coded({0, 8, 12, 14, 15, 1, 9, 13, 11, 5, 7, 4, 3}, Push(2, 0, Push(13, 4, Push(10, 5, Push(9, 5, Push(4, 6, Push(2, 6, Push(1, 6, Nil))))))));
    var s2 := Coded({0, 8, 12, 14, 15, 1, 9, 13, 11, 5, 7, 4, 3, 2}, Push(13, 4, Push(10, 5, Push(9, 5, Push(4, 6, Push(2, 6, Push(1, 6, Nil)))))));
    var s3 := Coded({0, 8, 12, 14, 15, 1, 9, 13, 11, 5, 7, 4, 3, 2}, Push(10, 5, Push(9, 5, Push(4, 6, Push(2, 6, Push(1, 6, Nil))))));
    var s4 := Coded({0, 8, 12, 14, 15, 1, 9, 13, 11, 5, 7, 4, 3, 2, 10}, Push(9, 5, Push(4, 6, Push(2, 6, Push(1, 6, Nil)))));
    assert CodedStep(s0) == s1;
    assert CodedStep(s1) == s2;
    assert CodedStep(s2) == s3;
    assert CodedStep(s3) == s4;
    assert CodedRun(s3, 1) == CodedRun(s4, 0) && CodedRun(s2, 2) == CodedRun(s3, 1) && CodedRun(s1, 3) == CodedRun(s2, 2);
  }

  lemma LastTurns()
    ensures CodedRun(Coded({0, 8, 12, 14, 15, 1, 9, 13, 11, 5, 7, 4, 3, 2, 10}, Push(9, 5, Push(4, 6, Push(2, 6, Push(1, 6, Nil))))), 4)
         == Coded({0, 8, 12, 14, 15, 1, 9, 13, 11, 5, 7, 4, 3, 2, 10}, Nil)
  {
    var s0 := Coded({0, 8, 12, 14, 15, 1, 9, 13, 11, 5, 7, 4, 3, 2, 10}, Push(9, 5, Push(4, 6, Push(2, 6, Push(1, 6, Nil)))));
    var s1 := Coded({0, 8, 12, 14, 15, 1, 9, 13, 11, 5, 7, 4, 3, 2, 10}, Push(4, 6, Push(2, 6, Push(1, 6, Nil))));
    var s2 := Coded({0, 8, 12, 14, 15, 1, 9, 13, 11, 5, 7, 4, 3, 2, 10}, Push(2, 6, Push(1, 6, Nil)));
    var s3 := Coded({0, 8, 12, 14, 15, 1, 9, 13, 11, 5, 7, 4, 3, 2, 10}, Push(1, 6, Nil));
    var s4 := Coded({0, 8, 12, 14, 15, 1, 9, 13, 11, 5, 7, 4, 3, 2, 10}, Nil);
    assert CodedStep(s0) == s1;
    assert CodedStep(s1) == s2;
    assert CodedStep(s2) == s3;
    assert CodedStep(s3) == s4;
    assert CodedRun(s3, 1) == CodedRun(s4, 0) && CodedRun(s2, 2) == CodedRun(s3, 1) && CodedRun(s1, 3) == CodedRun(s2, 2);
  }

  lemma WholeRun(result: set<set<string>>)
    requires Yields(LOOPED, LOOPED_ORDER, LOOPED_SKIP, Decoded(Coded({}, Push(0, 7, Nil))), result)
    ensures Yields(LOOPED, LOOPED_ORDER, LOOPED_SKIP,
                   Decoded(Coded({0, 8, 12, 14, 15, 1, 9, 13, 11, 5, 7, 4, 3, 2, 10}, Nil)), result)
  {
    FirstTurns();
    RunIsCoded(Coded({}, Push(0, 7, Nil)), 4, result);
    SecondTurns();
    RunIsCoded(Coded({0, 8, 12, 14}, Push(15, 3, Push(13, 4, Push(10, 5, Push(9, 5, Push(4, 6, Push(2, 6, Push(1, 6, Nil)))))))), 4, result);
    ThirdTurns();
    RunIsCoded(Coded({0, 8, 12, 14, 15, 1, 9, 13}, Push(11, 0, Push(5, 1, Push(3, 1, Push(13, 4, Push(10, 5, Push(9, 5, Push(4, 6, Push(2, 6, Push(1, 6, Nil)))))))))), 4, result);
    FourthTurns();
    RunIsCoded(Coded({0, 8, 12, 14, 15, 1, 9, 13, 11, 5, 7, 4}, Push(3, 1, Push(13, 4, Push(10, 5, Push(9, 5, Push(4, 6, Push(2, 6, Push(1, 6, Nil)))))))), 4, result);
    LastTurns();
    RunIsCoded(Coded({0, 8, 12, 14, 15, 1, 9, 13, 11, 5, 7, 4, 3, 2, 10}, Push(9, 5, Push(4, 6, Push(2, 6, Push(1, 6, Nil))))), 4, result);
  }

  lemma CodedResult(result: set<set<string>>)
    requires Yields(LOOPED, LOOPED_ORDER, LOOPED_SKIP, Decoded(Coded({}, Push(0, 7, Nil))), result)
    ensures {"d", "e"} in Wanted(LOOPED, LOOPED_SKIP) && {"d", "e"} !in result
  {
    WholeRun(result);
    AfterTheRun({0, 8, 12, 14, 15, 1, 9, 13, 11, 5, 7, 4, 3, 2, 10}, result);
  }

  /** The example is of the kind that a large enough limit would enumerate exactly. */
  lemma LoopedQualifies()
    ensures TransitivelyClosed(LOOPED) && SelfSkipped(LOOPED, LOOPED_SKIP)
  {
    assert {"a"} in LOOPED_SKIP && {"b"} in LOOPED_SKIP;
  }

  /** With the default size limit, 7 for six features, and skip sets that exclude the two features
      that depend on themselves, a wanted set is missed: fifteen of the sixteen are found. */
  lemma DefaultLimitMissesASet(result: set<set<string>>)
    requires Yields(LOOPED, LOOPED_ORDER, LOOPED_SKIP, Search({}, [Entry({}, |LOOPED| + 1)]), result)
    ensures {"d", "e"} in Wanted(LOOPED, LOOPED_SKIP) && {"d", "e"} !in result
  {
    StartIsCoded();
    CodedResult(result);
  }

  lemma AfterTheRun(found: set<nat>, result: set<set<string>>)
    requires 6 !in found && forall n :: n in found ==> n < 16
    requires Yields(LOOPED, LOOPED_ORDER, LOOPED_SKIP, Decoded(Coded(found, Nil)), result)
    ensures {"d", "e"} in Wanted(LOOPED, LOOPED_SKIP) && {"d", "e"} !in result
  {
    YieldsEnd(LOOPED, LOOPED_ORDER, LOOPED_SKIP, Decoded(Coded(found, Nil)), result);
    SixIsWanted(found);
  }

  lemma StartIsCoded()
    ensures Search({}, [Entry({}, |LOOPED| + 1)]) == Decoded(Coded({}, Push(0, 7, Nil)))
  {
    assert LOOPED.Keys == {"a", "b", "c", "d", "e", "f"} && |LOOPED| == |LOOPED.Keys| == 6;
    assert Entries(Push(0, 7, Nil)) == [] + [Entry({}, 7)];
  }

  lemma SixIsWanted(found: set<nat>)
    requires 6 !in found && forall n :: n in found ==> n < 16
    ensures {"d", "e"} in Wanted(LOOPED, LOOPED_SKIP) && {"d", "e"} !in NamedAll(found)
  {
    NamedMembers(6);
    assert Named(6) == {"d", "e"};
    NamedFound(found, 6);
    assert Independent(LOOPED, {"d", "e"});
  }
}
