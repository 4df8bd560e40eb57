/**
 What a worklist run decides, told without stacks and shapes: it accepts exactly if the paths below the
 entry can be listed, every entry they lead to fits, and what those weigh adds up to no more than the limits.
 */
module WorklistPaths {
  import opened Common
  import opened Worklist

  type Path = seq<nat>

  // ---------------------------------------------------------------------------
  // Adding up what paths lead to

  function Sum(w: Path -> Total, ps: seq<Path>): Total {
    if ps == [] then NOTHING else Plus(Sum(w, ps[..|ps| - 1]), w(ps[|ps| - 1]))
  }

  lemma PlusCommutes(a: Total, b: Total)
    ensures Plus(a, b) == Plus(b, a) && Plus(NOTHING, a) == a
  {
  }

  lemma {:induction false} SumConcat(w: Path -> Total, ps: seq<Path>, qs: seq<Path>)
    ensures Sum(w, ps + qs) == Plus(Sum(w, ps), Sum(w, qs))
    decreases |qs|
  {
    hide Plus;
    if qs == [] {
      assert ps + qs == ps;
      PlusAssociates(Sum(w, ps), NOTHING, NOTHING);
    } else {
      var n := |qs| - 1;
      assert (ps + qs)[..|ps| + n] == ps + qs[..n];
      SumConcat(w, ps, qs[..n]);
      PlusAssociates(Sum(w, ps), Sum(w, qs[..n]), w(qs[n]));
    }
  }

  lemma SumSingle(w: Path -> Total, p: Path)
    ensures Sum(w, [p]) == w(p)
  {
    hide Plus;
    assert [p][..0] == [];
    PlusCommutes(w(p), NOTHING);
  }

  function Drop(ps: seq<Path>, k: nat): (r: seq<Path>)
    requires k < |ps|
    ensures |r| == |ps| - 1
  {
    ps[..k] + ps[k + 1..]
  }

  /** A path may be added wherever it stands. */
  lemma SumDrop(w: Path -> Total, ps: seq<Path>, k: nat)
    requires k < |ps|
    ensures Sum(w, ps) == Plus(Sum(w, Drop(ps, k)), w(ps[k]))
  {
    hide Plus, Sum;
    var a, x, b := ps[..k], [ps[k]], ps[k + 1..];
    SplitAt(ps, k);
    SumConcat(w, a, x + b);
    SumConcat(w, x, b);
    SumConcat(w, a, b);
    SumSingle(w, ps[k]);
    MiddleLast(Sum(w, a), w(ps[k]), Sum(w, b));
  }

  lemma SplitAt(ps: seq<Path>, k: nat)
    requires k < |ps|
    ensures ps == ps[..k] + ([ps[k]] + ps[k + 1..])
  {
  }

  lemma MiddleLast(a: Total, x: Total, b: Total)
    ensures Plus(a, Plus(x, b)) == Plus(Plus(a, b), x)
  {
  }

  lemma DropRemoves(ps: seq<Path>, k: nat)
    requires Distinct(ps) && k < |ps|
    ensures Distinct(Drop(ps, k))
    ensures forall p: Path :: p in Drop(ps, k) <==> p in ps && p != ps[k]
  {
    var rest := Drop(ps, k);
    assert forall i :: 0 <= i < |rest| ==> rest[i] == ps[if i < k then i else i + 1];
    forall p: Path | p in ps && p != ps[k]
      ensures p in rest
    {
      var i :| 0 <= i < |ps| && ps[i] == p;
      assert rest[if i < k then i else i - 1] == p;
    }
  }

  lemma NoneIn(ps: seq<Path>, qs: seq<Path>)
    requires forall p: Path :: p in ps <==> p in qs
    ensures ps == [] ==> qs == []
  {
    if qs != [] {
      assert qs[0] in qs;
    }
  }

  /** Two lists of the same paths add up to the same. */
  lemma {:induction false} SumPermutes(w: Path -> Total, ps: seq<Path>, qs: seq<Path>)
    requires Distinct(ps) && Distinct(qs) && forall p: Path :: p in ps <==> p in qs
    ensures Sum(w, ps) == Sum(w, qs)
    decreases |ps|
  {
    NoneIn(ps, qs);
    if ps != [] {
      var n := |ps| - 1;
      assert ps[n] in qs;
      var k :| 0 <= k < |qs| && qs[k] == ps[n];
      DropRemoves(ps, n);
      DropRemoves(qs, k);
      SumDrop(w, ps, n);
      SumDrop(w, qs, k);
      hide Plus, Sum, Distinct, Drop;
      SumPermutes(w, Drop(ps, n), Drop(qs, k));
    }
  }

  // ---------------------------------------------------------------------------
  // The paths of a shape

  function Below(i: nat, ps: seq<Path>): (r: seq<Path>)
    ensures |r| == |ps| && forall k :: 0 <= k < |r| ==> r[k] == [i] + ps[k]
  {
    seq(|ps|, k requires 0 <= k < |ps| => [i] + ps[k])
  }

  function Paths(s: Shape): seq<Path>
    decreases s
  {
    [[]] + PathsAll(s.children)
  }

  function PathsAll(ss: seq<Shape>): seq<Path>
    decreases ss
  {
    if ss == [] then [] else PathsAll(ss[..|ss| - 1]) + Below(|ss| - 1, Paths(ss[|ss| - 1]))
  }

  lemma {:induction false} SumBelow(w: Path -> Total, w': Path -> Total, i: nat, ps: seq<Path>)
    requires forall p: Path :: w([i] + p) == w'(p)
    ensures Sum(w, Below(i, ps)) == Sum(w', ps)
    decreases |ps|
  {
    hide Plus;
    if ps != [] {
      var n := |ps| - 1;
      assert Below(i, ps)[..n] == Below(i, ps[..n]);
      SumBelow(w, w', i, ps[..n]);
    }
  }

  ghost function WeightAt<E(!new)>(rules: Rules<E>, e: E, p: Path): Total {
    if Reached(rules, e, p).Some? then rules.weigh(Reached(rules, e, p).value) else NOTHING
  }

  /** Each path below `e` occurs once. */
  ghost predicate Lists<E(!new)>(rules: Rules<E>, e: E, ps: seq<Path>) {
    Distinct(ps) && forall p: Path :: p in ps <==> Reached(rules, e, p).Some?
  }

  /** Every entry a path leads to fits. */
  ghost predicate AllFit<E(!new)>(rules: Rules<E>, e: E) {
    forall p: Path :: Reached(rules, e, p).Some? ==> rules.fits(Reached(rules, e, p).value)
  }

  lemma FirstStep<E(!new)>(rules: Rules<E>, e: E, i: nat, p: Path)
    requires i < |rules.expand(e)|
    ensures Reached(rules, e, [i] + p) == Reached(rules, rules.expand(e)[i], p)
    ensures WeightAt(rules, e, [i] + p) == WeightAt(rules, rules.expand(e)[i], p)
  {
    assert ([i] + p)[1..] == p;
  }

  /** What a list says of the paths that start with the first `n` children. */
  ghost predicate ListsChildren<E(!new)>(rules: Rules<E>, e: E, ps: seq<Path>, n: nat) {
    && Distinct(ps)
    && (forall p: Path :: p in ps <==> p != [] && p[0] < n && Reached(rules, e, p).Some?)
    && forall p: Path :: p != [] && p[0] < n && Reached(rules, e, p).Some? ==> rules.fits(Reached(rules, e, p).value)
  }

  lemma {:induction false} ShapeLists<E(!new)>(rules: Rules<E>, e: E, s: Shape)
    requires Expands(rules, e, s)
    ensures Lists(rules, e, Paths(s)) && AllFit(rules, e)
    ensures Sum((p: Path) => WeightAt(rules, e, p), Paths(s)) == Weight(rules, e, s)
    decreases s, 1, 0
  {
    var es, ss := rules.expand(e), s.children;
    var w := (p: Path) => WeightAt(rules, e, p);
    ExpandsLength(rules, e, s);
    ExpandsAll(rules, e, s);
    ShapesList(rules, e, ss, |es|);
    assert es[..|es|] == es && ss[..|es|] == ss;
    hide Weight, WeightAll, PathsAll, Plus;
    SumConcat(w, [[]], PathsAll(ss));
    SumSingle(w, []);
    ListsAll(rules, e, PathsAll(ss));
    hide Sum;
    WeightSplits(rules, e, s);
  }

  lemma ExpandsAll<E(!new)>(rules: Rules<E>, e: E, s: Shape)
    requires Expands(rules, e, s)
    ensures AllExpand(rules, rules.expand(e), s.children)
  {
  }

  lemma WeightSplits<E(!new)>(rules: Rules<E>, e: E, s: Shape)
    ensures Weight(rules, e, s) == Plus(rules.weigh(e), WeightAll(rules, rules.expand(e), s.children))
  {
  }

  lemma ListsAll<E(!new)>(rules: Rules<E>, e: E, ps: seq<Path>)
    requires rules.fits(e) && ListsChildren(rules, e, ps, |rules.expand(e)|)
    ensures Lists(rules, e, [[]] + ps) && AllFit(rules, e)
  {
    var all: seq<Path> := [[]] + ps;
    forall p: Path
      ensures p in all <==> Reached(rules, e, p).Some?
    {
      assert p in all <==> p == [] || p in ps;
    }
    assert forall i :: 0 < i < |all| ==> all[i] == ps[i - 1] && all[i] in ps;
  }

  lemma {:induction false} ShapesList<E(!new)>(rules: Rules<E>, e: E, ss: seq<Shape>, n: nat)
    requires n <= |ss| == |rules.expand(e)| && AllExpand(rules, rules.expand(e), ss)
    ensures ListsChildren(rules, e, PathsAll(ss[..n]), n)
    ensures Sum((p: Path) => WeightAt(rules, e, p), PathsAll(ss[..n])) == WeightAll(rules, rules.expand(e)[..n], ss[..n])
    decreases ss, 0, n
  {
    if n > 0 {
      hide Paths, Weight, Expands, Plus, Sum, Below, Lists, AllFit, Reached;
      var es, k := rules.expand(e), n - 1;
      ChildExpands(rules, es, ss, k);
      ShapesList(rules, e, ss, k);
      ShapeLists(rules, es[k], ss[k]);
      assert ss[..n][..k] == ss[..k] && es[..n][..k] == es[..k];
      WeightLast(rules, es[..n], ss[..n]);
      hide AllExpand, WeightAll;
      var before := PathsAll(ss[..k]);
      assert PathsAll(ss[..n]) == before + Below(k, Paths(ss[k]));
      hide PathsAll;
      OneMoreSum(rules, e, before, Paths(ss[k]), k);
      OneMoreChild(rules, e, before, Paths(ss[k]), k);
    }
  }

  lemma OneMoreSum<E(!new)>(rules: Rules<E>, e: E, before: seq<Path>, ps: seq<Path>, k: nat)
    requires k < |rules.expand(e)|
    ensures Sum((p: Path) => WeightAt(rules, e, p), before + Below(k, ps)) ==
            Plus(Sum((p: Path) => WeightAt(rules, e, p), before), Sum((p: Path) => WeightAt(rules, rules.expand(e)[k], p), ps))
  {
    hide Plus, Sum;
    var w, w' := (p: Path) => WeightAt(rules, e, p), (p: Path) => WeightAt(rules, rules.expand(e)[k], p);
    SumConcat(w, before, Below(k, ps));
    forall p: Path
      ensures w([k] + p) == w'(p)
    {
      FirstStep(rules, e, k, p);
    }
    SumBelow(w, w', k, ps);
  }

  lemma OneMoreChild<E(!new)>(rules: Rules<E>, e: E, before: seq<Path>, ps: seq<Path>, k: nat)
    requires k < |rules.expand(e)| && ListsChildren(rules, e, before, k)
    requires Lists(rules, rules.expand(e)[k], ps) && AllFit(rules, rules.expand(e)[k])
    ensures ListsChildren(rules, e, before + Below(k, ps), k + 1)
  {
    var es := rules.expand(e);
    var last := Below(k, ps);
    var all := before + last;
    forall p: Path
      ensures p in last <==> p != [] && p[0] == k && Reached(rules, e, p).Some?
    {
      if p != [] && p[0] == k {
        assert p == [k] + p[1..];
        FirstStep(rules, e, k, p[1..]);
        if p[1..] in ps {
          var i :| 0 <= i < |ps| && ps[i] == p[1..];
          assert last[i] == p;
        }
        if p in last {
          var i :| 0 <= i < |last| && last[i] == p;
          assert p[1..] == ps[i];
        }
      }
    }
    forall i, j | 0 <= i < j < |all|
      ensures all[i] != all[j]
    {
      if |before| <= i {
        assert all[i] == [k] + ps[i - |before|] && all[j] == [k] + ps[j - |before|];
        assert all[i][1..] == ps[i - |before|] && all[j][1..] == ps[j - |before|];
      } else if |before| <= j {
        assert all[i] in before && all[j] in last;
      }
    }
    forall p: Path | p != [] && p[0] == k && Reached(rules, e, p).Some?
      ensures rules.fits(Reached(rules, e, p).value)
    {
      assert p == [k] + p[1..];
      FirstStep(rules, e, k, p[1..]);
    }
  }

  // ---------------------------------------------------------------------------
  // Back from a list to a shape

  /** No path below is longer than `depth`. */
  ghost predicate NoDeeper<E(!new)>(rules: Rules<E>, e: E, depth: nat) {
    forall p: Path :: Reached(rules, e, p).Some? ==> |p| <= depth
  }

  lemma ChildNoDeeper<E(!new)>(rules: Rules<E>, e: E, depth: nat, i: nat)
    requires NoDeeper(rules, e, depth) && AllFit(rules, e) && i < |rules.expand(e)|
    ensures depth > 0 && NoDeeper(rules, rules.expand(e)[i], depth - 1) && AllFit(rules, rules.expand(e)[i])
  {
    FirstStep(rules, e, i, []);
    assert |[i] + []| == 1;
    forall p: Path | Reached(rules, rules.expand(e)[i], p).Some?
      ensures |p| <= depth - 1 && rules.fits(Reached(rules, rules.expand(e)[i], p).value)
    {
      FirstStep(rules, e, i, p);
      assert |[i] + p| == 1 + |p|;
    }
  }

  lemma {:induction false} HasShape<E(!new)>(rules: Rules<E>, e: E, depth: nat) returns (s: Shape)
    requires NoDeeper(rules, e, depth) && AllFit(rules, e)
    ensures Expands(rules, e, s)
    decreases depth, 1, 0
  {
    assert Reached(rules, e, []) == Some(e);
    var es := rules.expand(e);
    var ss := HaveShapes(rules, e, depth, |es|);
    assert es[..|es|] == es;
    s := Shape(ss);
  }

  lemma {:induction false} HaveShapes<E(!new)>(rules: Rules<E>, e: E, depth: nat, n: nat) returns (ss: seq<Shape>)
    requires NoDeeper(rules, e, depth) && AllFit(rules, e) && n <= |rules.expand(e)|
    ensures AllExpand(rules, rules.expand(e)[..n], ss)
    decreases depth, 0, n
  {
    if n == 0 {
      ss := [];
    } else {
      var es := rules.expand(e);
      ChildNoDeeper(rules, e, depth, n - 1);
      hide NoDeeper, AllFit, Reached;
      var first := HaveShapes(rules, e, depth, n - 1);
      var last := HasShape(rules, es[n - 1], depth - 1);
      ss := first + [last];
      assert es[..n][..n - 1] == es[..n - 1] && ss[..n - 1] == first;
      hide Expands;
    }
  }

  function Longest(ps: seq<Path>): (n: nat)
    ensures forall p: Path :: p in ps ==> |p| <= n
  {
    if ps == [] then 0
    else
      var n := Longest(ps[1..]);
      assert ps == [ps[0]] + ps[1..];
      if |ps[0]| > n then |ps[0]| else n
  }

  ghost predicate ListsWithin<E(!new)>(rules: Rules<E>, limits: Limits, e: E, ps: seq<Path>) {
    Lists(rules, e, ps) && Within(Sum((p: Path) => WeightAt(rules, e, p), ps), limits)
  }

  /**
   A run accepts an entry exactly if there is a list of all paths below it, each once, every entry they
   lead to fits, and what these weigh adds up to no more than the limits.
   */
  lemma RunListsPaths<E(!new)>(rules: Rules<E>, limits: Limits, e: E)
    requires Lawful(rules)
    ensures Run(rules, limits, [e], NOTHING) == Accepted <==>
            AllFit(rules, e) && exists ps: seq<Path> :: ListsWithin(rules, limits, e, ps)
  {
    RunDecides(rules, limits, e);
    hide Run, Expands, Weight, Lists, AllFit, Sum, Within, Lawful;
    forall s | ExpandsWithin(rules, limits, e, s)
      ensures AllFit(rules, e) && ListsWithin(rules, limits, e, Paths(s))
    {
      ShapeLists(rules, e, s);
    }
    forall ps: seq<Path> | AllFit(rules, e) && ListsWithin(rules, limits, e, ps)
      ensures exists s :: ExpandsWithin(rules, limits, e, s)
    {
      var s := ListedShape(rules, e, ps);
      ShapeLists(rules, e, s);
      SameSum(rules, e, ps, Paths(s));
      assert ExpandsWithin(rules, limits, e, s);
    }
  }

  lemma ListedShape<E(!new)>(rules: Rules<E>, e: E, ps: seq<Path>) returns (s: Shape)
    requires Lists(rules, e, ps) && AllFit(rules, e)
    ensures Expands(rules, e, s)
  {
    hide AllFit, Expands, Longest;
    s := HasShape(rules, e, Longest(ps));
  }

  lemma SameSum<E(!new)>(rules: Rules<E>, e: E, ps: seq<Path>, qs: seq<Path>)
    requires Lists(rules, e, ps) && Lists(rules, e, qs)
    ensures Sum((p: Path) => WeightAt(rules, e, p), ps) == Sum((p: Path) => WeightAt(rules, e, p), qs)
  {
    hide WeightAt, Sum;
    SumPermutes((p: Path) => WeightAt(rules, e, p), ps, qs);
  }
}
