/**
 The worklist checks on document trees: they accept exactly the trees whose recursive node count and
 height are within the limits, whatever the order in which the stack visits the nodes.
 */
module TreeLimits {
  import opened Common

  /** A node of an mdast or hast tree as the limits see it; a text node is one without children. */
  datatype Tree = Node(children: seq<Tree>)

  datatype Entry = Entry(node: Tree, depth: nat)

  datatype Verdict = Accepted | TooManyNodes | TooDeep

  const AST_NODES: nat := 10000
  const NESTING_DEPTH: nat := 32

  // ---------------------------------------------------------------------------
  // Count and height

  function Count(t: Tree): (n: nat)
    ensures n > 0
    decreases t
  {
    1 + CountAll(t.children)
  }

  function CountAll(ts: seq<Tree>): nat
    decreases ts
  {
    if ts == [] then 0 else Count(ts[0]) + CountAll(ts[1..])
  }

  /** Every node below lies at most `depth` levels further down. */
  predicate Within(t: Tree, depth: int)
    decreases t
  {
    depth >= 0 && forall i :: 0 <= i < |t.children| ==> Within(t.children[i], depth - 1)
  }

  function Height(t: Tree): nat
    decreases t
  {
    HeightAll(t.children)
  }

  function HeightAll(ts: seq<Tree>): nat
    decreases ts
  {
    if ts == [] then 0
    else
      var first, rest := 1 + Height(ts[0]), HeightAll(ts[1..]);
      if first > rest then first else rest
  }

  lemma {:induction false} WithinIsHeight(t: Tree, depth: int)
    ensures Within(t, depth) <==> Height(t) <= depth
    decreases t, 1
  {
    AllWithinIsHeight(t.children, depth);
  }

  lemma {:induction false} AllWithinIsHeight(ts: seq<Tree>, depth: int)
    ensures (depth >= 0 && forall i :: 0 <= i < |ts| ==> Within(ts[i], depth - 1)) <==> HeightAll(ts) <= depth
    decreases ts, 0
  {
    if ts != [] {
      WithinIsHeight(ts[0], depth - 1);
      AllWithinIsHeight(ts[1..], depth);
      assert ts == [ts[0]] + ts[1..];
    }
  }

  // ---------------------------------------------------------------------------
  // The stack

  function Pending(stack: seq<Entry>): nat {
    if stack == [] then 0 else Pending(stack[..|stack| - 1]) + Count(stack[|stack| - 1].node)
  }

  /** Every node still to come lies within the limit. */
  predicate AllWithin(stack: seq<Entry>, limit: nat) {
    forall i :: 0 <= i < |stack| ==> Within(stack[i].node, limit - stack[i].depth)
  }

  function Children(t: Tree, depth: nat): (r: seq<Entry>)
    ensures |r| == |t.children|
    ensures forall i :: 0 <= i < |r| ==> r[i] == Entry(t.children[i], depth)
  {
    seq(|t.children|, i requires 0 <= i < |t.children| => Entry(t.children[i], depth))
  }

  lemma {:induction false} CountAllAppend(ts: seq<Tree>, t: Tree)
    ensures CountAll(ts + [t]) == CountAll(ts) + Count(t)
  {
    if ts == [] {
      assert ts + [t] == [t];
    } else {
      assert (ts + [t])[1..] == ts[1..] + [t];
      CountAllAppend(ts[1..], t);
    }
  }

  lemma PendingAppend(stack: seq<Entry>, e: Entry)
    ensures Pending(stack + [e]) == Pending(stack) + Count(e.node)
  {
    assert (stack + [e])[..|stack|] == stack;
  }

  /** Pushing the children of a node, one after the other. */
  method PushChildren(stack: seq<Entry>, t: Tree, depth: nat) returns (r: seq<Entry>)
    ensures r == stack + Children(t, depth)
    ensures Pending(r) == Pending(stack) + CountAll(t.children)
  {
    r := stack;
    for i := 0 to |t.children|
      invariant r == stack + Children(t, depth)[..i]
      invariant Pending(r) == Pending(stack) + CountAll(t.children[..i])
    {
      PendingAppend(r, Entry(t.children[i], depth));
      CountAllAppend(t.children[..i], t.children[i]);
      assert t.children[..i + 1] == t.children[..i] + [t.children[i]];
      assert Children(t, depth)[..i + 1] == Children(t, depth)[..i] + [Entry(t.children[i], depth)];
      r := r + [Entry(t.children[i], depth)];
    }
    assert t.children[..|t.children|] == t.children;
  }

  /** Popping a node within the limit and pushing its children keeps what is left to be found. */
  lemma PopKeepsWithin(stack: seq<Entry>, pushed: seq<Entry>, limit: nat)
    requires stack != []
    requires
      var last := stack[|stack| - 1];
      last.depth <= limit && pushed == stack[..|stack| - 1] + Children(last.node, last.depth + 1)
    ensures AllWithin(pushed, limit) <==> AllWithin(stack, limit)
  {
    var last, rest := stack[|stack| - 1], stack[..|stack| - 1];
    var children := Children(last.node, last.depth + 1);
    assert stack == rest + [last];
    assert AllWithin(children, limit) <==> Within(last.node, limit - last.depth) by {
      assert forall i :: 0 <= i < |children| ==> children[i].node == last.node.children[i];
    }
    WithinConcat(rest, children, limit);
    WithinConcat(rest, [last], limit);
  }

  lemma WithinConcat(a: seq<Entry>, b: seq<Entry>, limit: nat)
    ensures AllWithin(a + b, limit) <==> AllWithin(a, limit) && AllWithin(b, limit)
  {
    if AllWithin(a + b, limit) {
      forall i | 0 <= i < |a|
        ensures Within(a[i].node, limit - a[i].depth)
      {
        assert (a + b)[i] == a[i];
      }
      forall i | 0 <= i < |b|
        ensures Within(b[i].node, limit - b[i].depth)
      {
        assert (a + b)[|a| + i] == b[i];
      }
    }
  }

  lemma ChildrenWithin(root: Tree, stack: seq<Entry>)
    requires stack == Children(root, 1)
    ensures AllWithin(stack, NESTING_DEPTH) <==> Within(root, NESTING_DEPTH)
  {
    assert forall i :: 0 <= i < |stack| ==> stack[i].node == root.children[i];
  }

  lemma TooDeepIsNotWithin(stack: seq<Entry>)
    requires stack != [] && stack[|stack| - 1].depth > NESTING_DEPTH
    ensures !AllWithin(stack, NESTING_DEPTH)
  {
    assert !Within(stack[|stack| - 1].node, NESTING_DEPTH - stack[|stack| - 1].depth);
  }

  lemma EmptyIsWithin()
    ensures AllWithin([], NESTING_DEPTH) && Pending([]) == 0
  {
  }

  // ---------------------------------------------------------------------------
  // The checks

  /** assertTreeLimits: which limit is reported first may depend on the order, acceptance does not. */
  method AssertTreeLimits(root: Tree) returns (verdict: Verdict)
    ensures verdict == Accepted <==> Count(root) <= 10000 && Height(root) <= 32
    ensures verdict == TooManyNodes ==> Count(root) > 10000
    ensures verdict == TooDeep ==> Height(root) > 32
  {
    hide Within, AllWithin, CountAll, Count, Height, Pending, Children;
    var stack := [Entry(root, 0)];
    var nodes := 0;
    RootStart(root, stack);
    while stack != []
      invariant nodes + Pending(stack) == Count(root)
      invariant nodes <= AST_NODES
      invariant AllWithin(stack, NESTING_DEPTH) <==> Height(root) <= NESTING_DEPTH
      decreases AST_NODES - nodes
    {
      var current := stack[|stack| - 1];
      var rest := stack[..|stack| - 1];
      PendingLast(stack);
      nodes := nodes + 1;
      if nodes > AST_NODES {
        return TooManyNodes;
      }
      if current.depth > NESTING_DEPTH {
        TooDeepIsNotWithin(stack);
        return TooDeep;
      }
      var pushed := PushChildren(rest, current.node, current.depth + 1);
      PopKeepsWithin(stack, pushed, NESTING_DEPTH);
      stack := pushed;
    }
    EmptyIsWithin();
    return Accepted;
  }

  lemma RootStart(root: Tree, stack: seq<Entry>)
    requires stack == [Entry(root, 0)]
    ensures Pending(stack) == Count(root)
    ensures AllWithin(stack, NESTING_DEPTH) <==> Height(root) <= NESTING_DEPTH
  {
    WithinIsHeight(root, NESTING_DEPTH);
    assert stack[..0] == [];
  }

  /** The size refinement of the safe HAST root: its children start at depth one. */
  method CheckHastSize(root: Tree) returns (ok: bool)
    ensures ok <==> Count(root) <= 10000 && Height(root) <= 32
  {
    hide Within, AllWithin, CountAll, Count, Height, Pending, Children;
    var stack := PushChildren([], root, 1);
    var nodes := 1;
    ChildrenStart(root, stack);
    while stack != []
      invariant nodes + Pending(stack) == Count(root)
      invariant nodes <= AST_NODES
      invariant AllWithin(stack, NESTING_DEPTH) <==> Height(root) <= NESTING_DEPTH
      decreases AST_NODES - nodes
    {
      var current := stack[|stack| - 1];
      var rest := stack[..|stack| - 1];
      PendingLast(stack);
      nodes := nodes + 1;
      if nodes > AST_NODES || current.depth > NESTING_DEPTH {
        if current.depth > NESTING_DEPTH {
          TooDeepIsNotWithin(stack);
        }
        return false;
      }
      var pushed := PushChildren(rest, current.node, current.depth + 1);
      PopKeepsWithin(stack, pushed, NESTING_DEPTH);
      stack := pushed;
    }
    EmptyIsWithin();
    return true;
  }

  lemma ChildrenStart(root: Tree, stack: seq<Entry>)
    requires stack == [] + Children(root, 1) && Pending(stack) == Pending([]) + CountAll(root.children)
    ensures 1 + Pending(stack) == Count(root)
    ensures AllWithin(stack, NESTING_DEPTH) <==> Height(root) <= NESTING_DEPTH
  {
    assert stack == Children(root, 1);
    ChildrenWithin(root, stack);
    WithinIsHeight(root, NESTING_DEPTH);
  }

  lemma PendingLast(stack: seq<Entry>)
    requires stack != []
    ensures
      var last := stack[|stack| - 1];
      Pending(stack) == Pending(stack[..|stack| - 1]) + 1 + CountAll(last.node.children)
  {
  }
}
