/**
 Checking a value by a worklist: entries are popped from a stack, weighed, and replaced by the entries
 they expand to, until the stack is empty or a limit is passed.  Expansion may go round in circles or
 reach an entry twice; the run still ends, and accepts exactly when a finite expansion stays within the limits.
 */
module Worklist {
  import opened Common

  /** What a run adds up: entries, two counts of bytes, and the identities met. */
  datatype Total = Total(values: nat, bytes: nat, marked: nat, ids: multiset<nat>)

  const NOTHING := Total(0, 0, 0, multiset{})

  function Plus(a: Total, b: Total): Total {
    Total(a.values + b.values, a.bytes + b.bytes, a.marked + b.marked, a.ids + b.ids)
  }

  datatype Limits = Limits(values: nat, bytes: nat, marked: nat)

  ghost predicate Within(t: Total, limits: Limits) {
    t.values <= limits.values && t.bytes <= limits.bytes && t.marked <= limits.marked && forall id :: t.ids[id] <= 1
  }

  /** How entries expand, what each weighs, and which are too deep to be looked at. */
  datatype Rules<!E(!new)> = Rules(expand: E -> seq<E>, weigh: E -> Total, fits: E -> bool)

  /** An entry weighs one value and at most one identity. */
  ghost predicate Lawful<E(!new)>(rules: Rules<E>) {
    forall e :: rules.weigh(e).values == 1 && |rules.weigh(e).ids| <= 1
  }

  datatype Verdict<E> = Accepted | Rejected(entry: E) | RejectedMarked

  predicate Repeats(acc: Total, w: Total) {
    exists id :: id in w.ids && id in acc.ids
  }

  function Run<E(!new)>(rules: Rules<E>, limits: Limits, stack: seq<E>, acc: Total): Verdict<E>
    decreases limits.values - acc.values
  {
    if stack == [] then Accepted
    else
      var e := stack[|stack| - 1];
      var w := rules.weigh(e);
      if acc.values >= limits.values || w.values == 0 || !rules.fits(e) || Repeats(acc, w) then Rejected(e)
      else
        var next := Plus(acc, w);
        if next.marked > limits.marked then RejectedMarked
        else if next.bytes > limits.bytes then Rejected(e)
        else Run(rules, limits, stack[..|stack| - 1] + rules.expand(e), next)
  }

  // ---------------------------------------------------------------------------
  // Finite expansions

  /** A tree of the shape an entry expands to. */
  datatype Shape = Shape(children: seq<Shape>)

  ghost predicate Expands<E(!new)>(rules: Rules<E>, e: E, s: Shape)
    decreases s
  {
    rules.fits(e) && AllExpand(rules, rules.expand(e), s.children)
  }

  ghost predicate AllExpand<E(!new)>(rules: Rules<E>, es: seq<E>, ss: seq<Shape>)
    decreases ss
  {
    && |es| == |ss|
    && (es != [] ==>
          AllExpand(rules, es[..|es| - 1], ss[..|ss| - 1]) && Expands(rules, es[|es| - 1], ss[|ss| - 1]))
  }

  ghost function Weight<E(!new)>(rules: Rules<E>, e: E, s: Shape): Total
    decreases s
  {
    Plus(rules.weigh(e), WeightAll(rules, rules.expand(e), s.children))
  }

  ghost function WeightAll<E(!new)>(rules: Rules<E>, es: seq<E>, ss: seq<Shape>): Total
    decreases ss
  {
    if es == [] || ss == [] then NOTHING
    else Plus(WeightAll(rules, es[..|es| - 1], ss[..|ss| - 1]), Weight(rules, es[|es| - 1], ss[|ss| - 1]))
  }

  lemma {:induction false} ConcatExpands<E(!new)>(rules: Rules<E>, es: seq<E>, ss: seq<Shape>, es': seq<E>, ss': seq<Shape>)
    requires |es| == |ss| && |es'| == |ss'|
    ensures AllExpand(rules, es + es', ss + ss') <==> AllExpand(rules, es, ss) && AllExpand(rules, es', ss')
    decreases |es'|
  {
    hide Expands;
    if es' == [] {
      assert es + es' == es && ss + ss' == ss;
    } else {
      var n := |es'| - 1;
      assert (es + es')[..|es| + n] == es + es'[..n] && (ss + ss')[..|ss| + n] == ss + ss'[..n];
      ConcatExpands(rules, es, ss, es'[..n], ss'[..n]);
    }
  }

  lemma PlusAssociates(a: Total, b: Total, c: Total)
    ensures Plus(Plus(a, b), c) == Plus(a, Plus(b, c)) && Plus(a, NOTHING) == a
  {
  }

  lemma {:induction false} ConcatWeighs<E(!new)>(rules: Rules<E>, es: seq<E>, ss: seq<Shape>, es': seq<E>, ss': seq<Shape>)
    requires |es| == |ss| && |es'| == |ss'|
    ensures WeightAll(rules, es + es', ss + ss') == Plus(WeightAll(rules, es, ss), WeightAll(rules, es', ss'))
    decreases |es'|
  {
    hide Weight, Plus;
    if es' == [] {
      assert es + es' == es && ss + ss' == ss;
      PlusAssociates(WeightAll(rules, es, ss), NOTHING, NOTHING);
    } else {
      var n := |es'| - 1;
      ConcatWeighs(rules, es, ss, es'[..n], ss'[..n]);
      var last := Weight(rules, es'[n], ss'[n]);
      WeightLast(rules, es', ss');
      WeightLast(rules, es + es', ss + ss');
      assert (es + es')[..|es| + n] == es + es'[..n] && (ss + ss')[..|ss| + n] == ss + ss'[..n];
      hide WeightAll;
      PlusAssociates(WeightAll(rules, es, ss), WeightAll(rules, es'[..n], ss'[..n]), last);
    }
  }

  lemma WeightLast<E(!new)>(rules: Rules<E>, es: seq<E>, ss: seq<Shape>)
    requires |es| == |ss| > 0
    ensures WeightAll(rules, es, ss) ==
            Plus(WeightAll(rules, es[..|es| - 1], ss[..|ss| - 1]), Weight(rules, es[|es| - 1], ss[|ss| - 1]))
  {
  }

  /** One turn of the loop moves the weight of the popped entry from the stack to the account. */
  lemma TurnKeepsWeight<E(!new)>(rules: Rules<E>, stack: seq<E>, ss: seq<Shape>, acc: Total)
    requires |stack| == |ss| && stack != []
    ensures
      var n := |stack| - 1;
      var e, s := stack[n], ss[n];
      |rules.expand(e)| == |s.children| ==>
        && Plus(acc, WeightAll(rules, stack, ss)) ==
           Plus(Plus(acc, rules.weigh(e)), WeightAll(rules, stack[..n] + rules.expand(e), ss[..n] + s.children))
        && (AllExpand(rules, stack, ss) <==>
              rules.fits(e) && AllExpand(rules, stack[..n] + rules.expand(e), ss[..n] + s.children))
  {
    var n := |stack| - 1;
    var e, s := stack[n], ss[n];
    if |rules.expand(e)| == |s.children| {
      ConcatExpands(rules, stack[..n], ss[..n], rules.expand(e), s.children);
      ConcatWeighs(rules, stack[..n], ss[..n], rules.expand(e), s.children);
    }
  }

  // ---------------------------------------------------------------------------
  // What a run decides

  lemma WithinShrinks(a: Total, b: Total, limits: Limits)
    requires Within(Plus(a, b), limits)
    ensures Within(a, limits)
  {
    forall id
      ensures a.ids[id] <= 1
    {
      assert Plus(a, b).ids[id] == a.ids[id] + b.ids[id];
    }
  }

  lemma NoRepeat(acc: Total, w: Total, limits: Limits)
    requires Within(Plus(acc, w), limits)
    ensures !Repeats(acc, w)
  {
    forall id | id in w.ids
      ensures id !in acc.ids
    {
      assert Plus(acc, w).ids[id] == acc.ids[id] + w.ids[id];
    }
  }

  lemma AddsDistinct(acc: Total, w: Total)
    requires (forall id :: acc.ids[id] <= 1) && |w.ids| <= 1 && !Repeats(acc, w)
    ensures forall id :: Plus(acc, w).ids[id] <= 1
  {
    forall id
      ensures Plus(acc, w).ids[id] <= 1
    {
      if id in w.ids {
        assert w.ids == multiset{id} + (w.ids - multiset{id});
      }
    }
  }

  /** A finite expansion within the limits is accepted. */
  lemma {:induction false} WithinIsAccepted<E(!new)>(rules: Rules<E>, limits: Limits, stack: seq<E>, ss: seq<Shape>, acc: Total)
    requires Lawful(rules) && AllExpand(rules, stack, ss)
    requires Within(Plus(acc, WeightAll(rules, stack, ss)), limits)
    ensures Run(rules, limits, stack, acc) == Accepted
    decreases limits.values - acc.values
  {
    if stack != [] {
      var n := |stack| - 1;
      var e, s := stack[n], ss[n];
      assert Expands(rules, e, s);
      ExpandsLength(rules, e, s);
      var next, stack', ss' := Plus(acc, rules.weigh(e)), stack[..n] + rules.expand(e), ss[..n] + s.children;
      TurnKeepsWeight(rules, stack, ss, acc);
      WithinShrinks(next, WeightAll(rules, stack', ss'), limits);
      NoRepeat(acc, rules.weigh(e), limits);
      hide AllExpand, WeightAll, Repeats, Expands;
      WithinIsAccepted(rules, limits, stack', ss', next);
    }
  }

  lemma ExpandsLength<E(!new)>(rules: Rules<E>, e: E, s: Shape)
    requires Expands(rules, e, s)
    ensures rules.fits(e) && |rules.expand(e)| == |s.children|
  {
  }

  /** What is accepted has a finite expansion within the limits. */
  lemma {:induction false} AcceptedIsWithin<E(!new)>(rules: Rules<E>, limits: Limits, stack: seq<E>, acc: Total) returns (ss: seq<Shape>)
    requires Lawful(rules) && Within(acc, limits) && Run(rules, limits, stack, acc) == Accepted
    ensures AllExpand(rules, stack, ss) && Within(Plus(acc, WeightAll(rules, stack, ss)), limits)
    decreases limits.values - acc.values
  {
    if stack == [] {
      ss := [];
      assert Plus(acc, NOTHING) == acc;
    } else {
      var n := |stack| - 1;
      var e := stack[n];
      var next, stack' := Plus(acc, rules.weigh(e)), stack[..n] + rules.expand(e);
      AddsDistinct(acc, rules.weigh(e));
      hide AllExpand, WeightAll, Repeats;
      var ss' := AcceptedIsWithin(rules, limits, stack', next);
      ss := Regroup(rules, stack, ss', acc);
    }
  }

  /** The shapes of the children become one shape of their parent. */
  lemma Regroup<E(!new)>(rules: Rules<E>, stack: seq<E>, ss': seq<Shape>, acc: Total) returns (ss: seq<Shape>)
    requires stack != [] && rules.fits(stack[|stack| - 1])
    requires AllExpand(rules, stack[..|stack| - 1] + rules.expand(stack[|stack| - 1]), ss')
    ensures AllExpand(rules, stack, ss)
    ensures
      Plus(acc, WeightAll(rules, stack, ss)) ==
      Plus(Plus(acc, rules.weigh(stack[|stack| - 1])),
           WeightAll(rules, stack[..|stack| - 1] + rules.expand(stack[|stack| - 1]), ss'))
  {
    var n := |stack| - 1;
    ss := ss'[..n] + [Shape(ss'[n..])];
    assert ss[..n] == ss'[..n] && ss'[..n] + ss'[n..] == ss';
    TurnKeepsWeight(rules, stack, ss, acc);
  }

  ghost predicate ExpandsWithin<E(!new)>(rules: Rules<E>, limits: Limits, e: E, s: Shape) {
    Expands(rules, e, s) && Within(Weight(rules, e, s), limits)
  }

  /** The entry has a finite expansion within the limits. */
  ghost predicate Bounded<E(!new)>(rules: Rules<E>, limits: Limits, e: E) {
    exists s :: ExpandsWithin(rules, limits, e, s)
  }

  /** The check of one value: accepted exactly when it has a finite expansion within the limits. */
  lemma RunDecides<E(!new)>(rules: Rules<E>, limits: Limits, e: E)
    requires Lawful(rules)
    ensures Run(rules, limits, [e], NOTHING) == Accepted <==> Bounded(rules, limits, e)
  {
    if Run(rules, limits, [e], NOTHING) == Accepted {
      NothingWithin(limits);
      var ss := AcceptedIsWithin(rules, limits, [e], NOTHING);
      SingleWeight(rules, e, ss);
      assert ExpandsWithin(rules, limits, e, ss[0]);
    }
    forall s | ExpandsWithin(rules, limits, e, s)
      ensures Run(rules, limits, [e], NOTHING) == Accepted
    {
      SingleExpands(rules, e, s);
      WithinIsAccepted(rules, limits, [e], [s], NOTHING);
    }
  }

  lemma NothingWithin(limits: Limits)
    ensures Within(NOTHING, limits)
  {
  }

  lemma SingleWeight<E(!new)>(rules: Rules<E>, e: E, ss: seq<Shape>)
    requires AllExpand(rules, [e], ss)
    ensures |ss| == 1 && Expands(rules, e, ss[0])
    ensures Plus(NOTHING, WeightAll(rules, [e], ss)) == Weight(rules, e, ss[0])
  {
    assert [e][..0] == [];
  }

  lemma SingleExpands<E(!new)>(rules: Rules<E>, e: E, s: Shape)
    requires Expands(rules, e, s)
    ensures AllExpand(rules, [e], [s]) && Plus(NOTHING, WeightAll(rules, [e], [s])) == Weight(rules, e, s)
  {
    assert [e][..0] == [] && [s][..0] == [];
    hide Expands, Weight;
  }

  // ---------------------------------------------------------------------------
  // Entries reached twice

  /** The entry a path of child numbers leads to. */
  ghost function Reached<E(!new)>(rules: Rules<E>, e: E, path: seq<nat>): Option<E>
    decreases |path|
  {
    if path == [] then Some(e)
    else if path[0] < |rules.expand(e)| then Reached(rules, rules.expand(e)[path[0]], path[1..])
    else None
  }

  lemma {:induction false} ChildExpands<E(!new)>(rules: Rules<E>, es: seq<E>, ss: seq<Shape>, i: nat)
    requires AllExpand(rules, es, ss) && i < |es|
    ensures |es| == |ss| && Expands(rules, es[i], ss[i])
    decreases |es|
  {
    hide Expands;
    if i < |es| - 1 {
      ChildExpands(rules, es[..|es| - 1], ss[..|ss| - 1], i);
    }
  }

  lemma {:induction false} ChildIds<E(!new)>(rules: Rules<E>, es: seq<E>, ss: seq<Shape>, i: nat)
    requires |es| == |ss| && i < |es|
    ensures Weight(rules, es[i], ss[i]).ids <= WeightAll(rules, es, ss).ids
    decreases |es|
  {
    hide Weight, WeightAll;
    WeightLast(rules, es, ss);
    if i < |es| - 1 {
      ChildIds(rules, es[..|es| - 1], ss[..|ss| - 1], i);
    }
  }

  lemma {:induction false} TwoChildrenIds<E(!new)>(rules: Rules<E>, es: seq<E>, ss: seq<Shape>, i: nat, j: nat)
    requires |es| == |ss| && i < j < |es|
    ensures Weight(rules, es[i], ss[i]).ids + Weight(rules, es[j], ss[j]).ids <= WeightAll(rules, es, ss).ids
    decreases |es|
  {
    hide Weight, WeightAll;
    var n := |es| - 1;
    WeightLast(rules, es, ss);
    if j < n {
      TwoChildrenIds(rules, es[..n], ss[..n], i, j);
    } else {
      ChildIds(rules, es[..n], ss[..n], i);
    }
  }

  lemma WeightOf<E(!new)>(rules: Rules<E>, e: E, s: Shape)
    requires Expands(rules, e, s)
    ensures |rules.expand(e)| == |s.children| && AllExpand(rules, rules.expand(e), s.children)
    ensures Weight(rules, e, s).ids == rules.weigh(e).ids + WeightAll(rules, rules.expand(e), s.children).ids
  {
  }

  /** What an entry below weighs is part of the weight. */
  lemma {:induction false} ReachedIds<E(!new)>(rules: Rules<E>, e: E, s: Shape, path: seq<nat>)
    requires Expands(rules, e, s) && Reached(rules, e, path).Some?
    ensures rules.weigh(Reached(rules, e, path).value).ids <= Weight(rules, e, s).ids
    decreases |path|
  {
    WeightOf(rules, e, s);
    hide Weight, WeightAll, Expands, AllExpand;
    if path != [] {
      var es := rules.expand(e);
      ChildExpands(rules, es, s.children, path[0]);
      ReachedIds(rules, es[path[0]], s.children[path[0]], path[1..]);
      ChildIds(rules, es, s.children, path[0]);
    }
  }

  /** Two paths to the same identity count it twice. */
  lemma {:induction false} CountedTwice<E(!new)>(rules: Rules<E>, e: E, s: Shape, p: seq<nat>, q: seq<nat>, id: nat)
    requires Expands(rules, e, s) && p != q
    requires Reached(rules, e, p).Some? && id in rules.weigh(Reached(rules, e, p).value).ids
    requires Reached(rules, e, q).Some? && id in rules.weigh(Reached(rules, e, q).value).ids
    ensures Weight(rules, e, s).ids[id] >= 2
    decreases |p|
  {
    WeightOf(rules, e, s);
    var es, ss := rules.expand(e), s.children;
    if p == [] || q == [] {
      hide Weight, WeightAll, Expands, AllExpand;
      var path := if p == [] then q else p;
      ChildExpands(rules, es, ss, path[0]);
      ReachedIds(rules, es[path[0]], ss[path[0]], path[1..]);
      ChildIds(rules, es, ss, path[0]);
    } else {
      hide Weight, WeightAll, Expands, AllExpand;
      ChildExpands(rules, es, ss, p[0]);
      ChildExpands(rules, es, ss, q[0]);
      if p[0] == q[0] {
        assert p == [p[0]] + p[1..] && q == [q[0]] + q[1..];
        CountedTwice(rules, es[p[0]], ss[p[0]], p[1..], q[1..], id);
        ChildIds(rules, es, ss, p[0]);
      } else {
        ReachedIds(rules, es[p[0]], ss[p[0]], p[1..]);
        ReachedIds(rules, es[q[0]], ss[q[0]], q[1..]);
        TwoChildrenIds(rules, es, ss, if p[0] < q[0] then p[0] else q[0], if p[0] < q[0] then q[0] else p[0]);
      }
    }
  }

  /** An identity reached by two paths is rejected whatever the limits. */
  lemma ReachedTwiceRejected<E(!new)>(rules: Rules<E>, e: E, p: seq<nat>, q: seq<nat>, id: nat, limits: Limits)
    requires p != q
    requires Reached(rules, e, p).Some? && id in rules.weigh(Reached(rules, e, p).value).ids
    requires Reached(rules, e, q).Some? && id in rules.weigh(Reached(rules, e, q).value).ids
    ensures !Bounded(rules, limits, e)
  {
    forall s | Expands(rules, e, s)
      ensures !ExpandsWithin(rules, limits, e, s)
    {
      hide Expands;
      CountedTwice(rules, e, s, p, q, id);
    }
  }
}
