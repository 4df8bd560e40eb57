/**
 What the payload checks look at, told by the positions of properties: the elements of a children array,
 how deep they may lie, and the path under which a property is reported.
 */
module PayloadPositions {
  import opened Common
  import opened Worklist
  import opened WorklistPaths
  import opened PayloadLimits

  // ---------------------------------------------------------------------------
  // What a value adds to the byte count

  lemma {:induction false} KeyBytesAdd(a: seq<Property>, b: seq<Property>)
    ensures KeyBytes(a + b) == KeyBytes(a) + KeyBytes(b)
  {
    if b == [] {
      assert a + b == a;
    } else {
      var n := |b| - 1;
      assert (a + b)[..|a| + n] == a + b[..n];
      KeyBytesAdd(a, b[..n]);
    }
  }

  /** A string counts its bytes, an object the keys before, of and after any of its properties, all else eight. */
  lemma OwnBytesExactly(h: Heap, id: nat, n: nat, k: nat)
    requires id in h && k < |h[id].properties|
    ensures OwnBytes(h, Text(n)) == n && OwnBytes(h, Other) == 8
    ensures OwnBytes(h, Ref(id)) ==
            KeyBytes(h[id].properties[..k]) + h[id].properties[k].keyBytes + KeyBytes(h[id].properties[k + 1..])
  {
    var ps := h[id].properties;
    assert ps == ps[..k] + ([ps[k]] + ps[k + 1..]);
    KeyBytesAdd(ps[..k], [ps[k]] + ps[k + 1..]);
    KeyBytesAdd([ps[k]], ps[k + 1..]);
    assert KeyBytes([ps[k]]) == ps[k].keyBytes by {
      assert [ps[k]][..0] == [];
    }
  }

  // ---------------------------------------------------------------------------
  // Children

  /** `list` is the array `h` holds in the last property "children" of the record `v`. */
  predicate ChildrenArray(h: Heap, v: Value, k: nat, list: nat) {
    && v.Ref? && v.id in h && !h[v.id].isArray
    && LastNamed(h[v.id].properties, k, "children") && h[v.id].properties[k].value == Ref(list)
    && list in h && h[list].isArray
  }

  /** The kids of a value are the elements of that array in order, and none without such an array. */
  lemma KidsExactly(h: Heap, v: Value)
    ensures forall k: nat, list: nat | ChildrenArray(h, v, k, list) :: Kids(h, v) == h[list].properties
    ensures Kids(h, v) != [] ==> exists k: nat, list: nat :: ChildrenArray(h, v, k, list)
  {
    GetIsLast(Properties(h, v), "children");
    hide Get;
    if Kids(h, v) != [] {
      var k: nat :| LastNamed(Properties(h, v), k, "children");
      assert ChildrenArray(h, v, k, Get(Properties(h, v), "children").id);
    }
  }

  /** `w` is element `i` of the children array of `v`. */
  ghost predicate IsChild(h: Heap, v: Value, w: Value, i: nat) {
    exists k: nat, list: nat :: ChildrenArray(h, v, k, list) && i < |h[list].properties| && h[list].properties[i].value == w
  }

  /** Each value is a child of the one before. */
  ghost predicate Descends(h: Heap, chain: seq<Value>) {
    |chain| > 1 ==> (exists i: nat :: IsChild(h, chain[0], chain[1], i)) && Descends(h, chain[1..])
  }

  lemma ChildIsKid(h: Heap, v: Value, w: Value, i: nat)
    requires IsChild(h, v, w, i)
    ensures i < |Kids(h, v)| && Kids(h, v)[i].value == w
  {
    KidsExactly(h, v);
  }

  /** Below a value that expands within the depth limit no chain of children is longer than the depth left. */
  lemma {:induction false} ChainFits(h: Heap, e: PlainEntry, s: Shape, chain: seq<Value>)
    requires Expands(HastRules(h), e, s) && chain != [] && chain[0] == e.value && Descends(h, chain)
    ensures e.depth + |chain| - 1 <= 32
    decreases |chain|
  {
    hide IsChild, Kids, Weight, WeightAll;
    ExpandsLength(HastRules(h), e, s);
    if |chain| > 1 {
      var i: nat :| IsChild(h, chain[0], chain[1], i);
      ChildIsKid(h, chain[0], chain[1], i);
      WeightOf(HastRules(h), e, s);
      hide Expands, AllExpand;
      ChildExpands(HastRules(h), KidEntries(h, e), s.children, i);
      ChainFits(h, KidEntries(h, e)[i], s.children[i], chain[1..]);
    }
  }

  /** A record with a descendant more than 32 children arrays below is not safe. */
  lemma DeepRootUnsafe(h: Heap, r: Value, chain: seq<Value>)
    requires r.Ref? && r.id in h && !h[r.id].isArray
    requires |chain| > 33 && chain[0] == r && Descends(h, chain)
    ensures !SafeHastRoot(h, r)
  {
    hide Descends, Expands;
    forall s | ExpandsWithin(HastRules(h), HAST_LIMITS, PlainEntry(r, 0), s)
      ensures false
    {
      ChainFits(h, PlainEntry(r, 0), s, chain);
    }
  }

  // ---------------------------------------------------------------------------
  // The path reported

  /** The keys along a path of property numbers. */
  function KeysAlong(h: Heap, v: Value, path: seq<nat>): (keys: seq<string>)
    requires ValueAt(h, v, path).Some?
    ensures |keys| == |path|
    decreases |path|
  {
    if path == [] then [] else [Properties(h, v)[path[0]].key] + KeysAlong(h, Properties(h, v)[path[0]].value, path[1..])
  }

  /** Elements of arrays have no key; a property "body" of the body is not told from the body itself. */
  predicate Unnamed(key: string) {
    key == "" || key == "body"
  }

  /** The first key that names a part of the body, or "body". */
  ghost predicate FirstName(keys: seq<string>, name: string) {
    || ((forall i :: 0 <= i < |keys| ==> Unnamed(keys[i])) && name == "body")
    || exists i: nat :: NamedAt(keys, i, name)
  }

  predicate NamedAt(keys: seq<string>, i: nat, name: string) {
    i < |keys| && !Unnamed(keys[i]) && name == keys[i] && forall j :: 0 <= j < i ==> Unnamed(keys[j])
  }

  /** Inside a named part every entry is reported under its name. */
  lemma {:induction false} NamedStays(h: Heap, e: Entry, path: seq<nat>)
    requires Reached(PayloadRules(h), e, path).Some?
    requires e.context.path != "body" && (e.context.renderModel <==> e.context.path == "renderModel")
    ensures Reached(PayloadRules(h), e, path).value.context == e.context
    ensures Reached(PayloadRules(h), e, path).value.depth == e.depth + |path|
    decreases |path|
  {
    if path != [] {
      NamedStays(h, ChildEntries(h, e)[path[0]], path[1..]);
    }
  }

  /**
   What lies at the end of a property path below the body is reported under the first name on that path, at
   the depth that is the length of the path, and counts as render model exactly below that name.
   */
  lemma {:induction false} ReportedName(h: Heap, e: Entry, path: seq<nat>)
    requires e.context == BODY && ValueAt(h, e.value, path).Some?
    ensures Reached(PayloadRules(h), e, path).Some?
    ensures
      var r := Reached(PayloadRules(h), e, path).value;
      && r.value == ValueAt(h, e.value, path).value
      && r.depth == e.depth + |path|
      && FirstName(KeysAlong(h, e.value, path), r.context.path)
      && (r.context.renderModel <==> r.context.path == "renderModel")
    decreases |path|
  {
    ReachesValue(h, e, path);
    if path != [] {
      var child := ChildEntries(h, e)[path[0]];
      var key := Properties(h, e.value)[path[0]].key;
      var keys := KeysAlong(h, e.value, path);
      if Unnamed(key) {
        ReportedName(h, child, path[1..]);
        FirstNameLater(keys, Reached(PayloadRules(h), e, path).value.context.path);
      } else {
        NamedStays(h, child, path[1..]);
        assert NamedAt(keys, 0, key);
      }
    }
  }

  lemma FirstNameLater(keys: seq<string>, name: string)
    requires keys != [] && Unnamed(keys[0]) && FirstName(keys[1..], name)
    ensures FirstName(keys, name)
  {
    assert forall j :: 1 <= j < |keys| ==> keys[j] == keys[1..][j - 1];
    if i: nat :| NamedAt(keys[1..], i, name) {
      assert NamedAt(keys, i + 1, name);
    }
  }

  lemma FirstNameUnique(keys: seq<string>, a: string, b: string)
    requires FirstName(keys, a) && FirstName(keys, b)
    ensures a == b
  {
    if i: nat, j: nat :| NamedAt(keys, i, a) && NamedAt(keys, j, b) {
      assert i == j;
    }
  }

  // ---------------------------------------------------------------------------
  // The limits, told by the property paths of the input

  /** Each property path from the input occurs once, the empty one for the input itself. */
  ghost predicate PropertyPaths(h: Heap, input: Value, ps: seq<Path>) {
    Distinct(ps) && forall p: Path :: p in ps <==> ValueAt(h, input, p).Some?
  }

  function NoPath(): Path -> bool {
    (p: Path) => false
  }

  /** The paths whose first name is renderModel. */
  ghost function RenderModelPaths(h: Heap, input: Value): Path -> bool {
    (p: Path) => ValueAt(h, input, p).Some? && FirstName(KeysAlong(h, input, p), "renderModel")
  }

  /** The bytes of the values at the ends of the paths; `counts` says which paths count. */
  ghost function Bytes(h: Heap, input: Value, counts: Path -> bool, ps: seq<Path>): nat {
    if ps == [] then 0
    else
      var p := ps[|ps| - 1];
      Bytes(h, input, counts, ps[..|ps| - 1])
      + if ValueAt(h, input, p).Some? && counts(p) then OwnBytes(h, ValueAt(h, input, p).value) else 0
  }

  /** No object lies at the ends of two of the paths. */
  ghost predicate NoneShared(h: Heap, input: Value, ps: seq<Path>) {
    forall i, j :: 0 <= i < j < |ps| ==> ValueAt(h, input, ps[i]) != ValueAt(h, input, ps[j]) || !IsObjectAt(h, input, ps[i])
  }

  predicate IsObjectAt(h: Heap, input: Value, p: Path) {
    ValueAt(h, input, p).Some? && ValueAt(h, input, p).value.Ref?
  }

  /** The entry the check makes of the value at the end of a path. */
  lemma EntryAt(h: Heap, e: Entry, p: Path)
    requires ValueAt(h, e.value, p).Some?
    ensures
      var r := Reached(PayloadRules(h), e, p);
      && r.Some? && r.value.value == ValueAt(h, e.value, p).value
      && WeightAt(PayloadRules(h), e, p) == OwnTotal(h, r.value)
  {
    ReachesValue(h, e, p);
  }

  /** What the property paths add up to. */
  lemma {:induction false} PathsWeigh(h: Heap, e: Entry, ps: seq<Path>, marks: Path -> bool)
    requires forall p: Path | p in ps :: ValueAt(h, e.value, p).Some?
    requires forall p: Path | p in ps :: marks(p) <==> Reached(PayloadRules(h), e, p).Some? && Reached(PayloadRules(h), e, p).value.context.renderModel
    ensures
      var t := Sum((p: Path) => WeightAt(PayloadRules(h), e, p), ps);
      && t.values == |ps|
      && t.bytes == Bytes(h, e.value, (p: Path) => true, ps)
      && t.marked == Bytes(h, e.value, marks, ps)
    decreases |ps|
  {
    if ps != [] {
      var n := |ps| - 1;
      assert ps == ps[..n] + [ps[n]];
      assert ps[n] in ps;
      EntryAt(h, e, ps[n]);
      hide Reached, ValueAt, WeightAt;
      PathsWeigh(h, e, ps[..n], marks);
    }
  }

  /** One of the paths leads to the object. */
  ghost predicate LeadTo(h: Heap, input: Value, ps: seq<Path>, id: nat) {
    exists i :: 0 <= i < |ps| && ValueAt(h, input, ps[i]) == Some(Ref(id))
  }

  lemma LeadToLast(h: Heap, input: Value, ps: seq<Path>, p: Path, id: nat)
    ensures LeadTo(h, input, ps + [p], id) <==> LeadTo(h, input, ps, id) || ValueAt(h, input, p) == Some(Ref(id))
  {
    var all := ps + [p];
    assert all[|ps|] == p && forall i :: 0 <= i < |ps| ==> all[i] == ps[i];
    hide ValueAt;
    if i :| 0 <= i < |ps| && ValueAt(h, input, ps[i]) == Some(Ref(id)) {
      assert ValueAt(h, input, all[i]) == Some(Ref(id));
    }
  }

  lemma NoneSharedLast(h: Heap, input: Value, ps: seq<Path>, p: Path)
    requires ValueAt(h, input, p).Some?
    ensures NoneShared(h, input, ps + [p]) <==>
            NoneShared(h, input, ps)
            && (ValueAt(h, input, p).value.Ref? ==> !LeadTo(h, input, ps, ValueAt(h, input, p).value.id))
  {
    var all := ps + [p];
    assert all[|ps|] == p && forall i :: 0 <= i < |ps| ==> all[i] == ps[i];
    hide ValueAt;
  }

  lemma IdentityAdds(ids: multiset<nat>, v: Value)
    ensures forall id :: id in ids + Identity(v) <==> id in ids || v == Ref(id)
    ensures (forall id :: (ids + Identity(v))[id] <= 1) <==> (forall id :: ids[id] <= 1) && (v.Ref? ==> v.id !in ids)
  {
    if v.Ref? {
      assert (ids + Identity(v))[v.id] == ids[v.id] + 1;
      assert forall id :: id != v.id ==> (ids + Identity(v))[id] == ids[id];
    } else {
      assert ids + Identity(v) == ids;
    }
  }

  lemma {:induction false} PathsMeet(h: Heap, e: Entry, ps: seq<Path>)
    requires forall p: Path | p in ps :: ValueAt(h, e.value, p).Some?
    ensures
      var t := Sum((p: Path) => WeightAt(PayloadRules(h), e, p), ps);
      && (forall id :: id in t.ids <==> LeadTo(h, e.value, ps, id))
      && ((forall id :: t.ids[id] <= 1) <==> NoneShared(h, e.value, ps))
    decreases |ps|
  {
    if ps != [] {
      var n := |ps| - 1;
      var p := ps[n];
      assert ps == ps[..n] + [p] && p in ps;
      EntryAt(h, e, p);
      PathsMeet(h, e, ps[..n]);
      hide Reached, ValueAt, WeightAt, LeadTo, NoneShared;
      var t := Sum((p: Path) => WeightAt(PayloadRules(h), e, p), ps[..n]);
      IdentityAdds(t.ids, ValueAt(h, e.value, p).value);
      NoneSharedLast(h, e.value, ps[..n], p);
      forall id
        ensures LeadTo(h, e.value, ps, id) <==> id in t.ids + Identity(ValueAt(h, e.value, p).value)
      {
        LeadToLast(h, e.value, ps[..n], p, id);
      }
    }
  }

  /** What the limits ask of the property paths of the input. */
  ghost predicate PathsWithin(h: Heap, input: Value, marks: Path -> bool, maxBytes: nat, maxMarked: nat, ps: seq<Path>) {
    && PropertyPaths(h, input, ps)
    && |ps| <= 80000
    && (forall p: Path | p in ps :: |p| <= 112)
    && NoneShared(h, input, ps)
    && Bytes(h, input, (p: Path) => true, ps) <= maxBytes
    && Bytes(h, input, marks, ps) <= maxMarked
  }

  lemma {:induction false} ReachedDepth(h: Heap, e: Entry, p: Path)
    requires Reached(PayloadRules(h), e, p).Some?
    ensures Reached(PayloadRules(h), e, p).value.depth == e.depth + |p|
    decreases |p|
  {
    if p != [] {
      ReachedDepth(h, ChildEntries(h, e)[p[0]], p[1..]);
    }
  }

  ghost predicate Marks(h: Heap, e: Entry, marks: Path -> bool) {
    forall p: Path | ValueAt(h, e.value, p).Some? ::
      marks(p) <==> Reached(PayloadRules(h), e, p).Some? && Reached(PayloadRules(h), e, p).value.context.renderModel
  }

  lemma FitByPaths(h: Heap, e: Entry)
    requires e.depth == 0
    ensures AllFit(PayloadRules(h), e) <==> forall p: Path | ValueAt(h, e.value, p).Some? :: |p| <= 112
  {
    forall p: Path
      ensures Reached(PayloadRules(h), e, p).Some? <==> ValueAt(h, e.value, p).Some?
      ensures Reached(PayloadRules(h), e, p).Some? ==> Reached(PayloadRules(h), e, p).value.depth == |p|
    {
      ReachesValue(h, e, p);
      if Reached(PayloadRules(h), e, p).Some? {
        ReachedDepth(h, e, p);
      }
    }
    hide Reached, ValueAt;
  }

  lemma ListsByPaths(h: Heap, e: Entry, ps: seq<Path>)
    ensures Lists(PayloadRules(h), e, ps) <==> PropertyPaths(h, e.value, ps)
  {
    forall p: Path
      ensures Reached(PayloadRules(h), e, p).Some? <==> ValueAt(h, e.value, p).Some?
    {
      ReachesValue(h, e, p);
    }
    hide Reached, ValueAt, Distinct;
  }

  lemma WithinByPaths(h: Heap, e: Entry, limits: Limits, marks: Path -> bool, ps: seq<Path>)
    requires limits.values == 80000 && Marks(h, e, marks) && PropertyPaths(h, e.value, ps)
    requires forall p: Path | p in ps :: |p| <= 112
    ensures ListsWithin(PayloadRules(h), limits, e, ps) <==> PathsWithin(h, e.value, marks, limits.bytes, limits.marked, ps)
  {
    hide Bytes, WeightAt, Sum, Lists, NoneShared;
    ListsByPaths(h, e, ps);
    PathsWeigh(h, e, ps, marks);
    PathsMeet(h, e, ps);
  }

  lemma BoundedByPaths(h: Heap, e: Entry, limits: Limits, marks: Path -> bool)
    requires limits.values == 80000 && e.depth == 0 && Marks(h, e, marks)
    ensures Bounded(PayloadRules(h), limits, e) <==>
            exists ps: seq<Path> :: PathsWithin(h, e.value, marks, limits.bytes, limits.marked, ps)
  {
    PayloadLawful(h);
    hide Run, Bounded, AllFit, Lists, Within, Sum, Marks, NoneShared, Bytes, Distinct, ValueAt;
    RunDecides(PayloadRules(h), limits, e);
    RunListsPaths(PayloadRules(h), limits, e);
    FitByPaths(h, e);
    forall ps: seq<Path> | PropertyPaths(h, e.value, ps) && forall p: Path | p in ps :: |p| <= 112
      ensures AllFit(PayloadRules(h), e)
      ensures ListsWithin(PayloadRules(h), limits, e, ps) <==> PathsWithin(h, e.value, marks, limits.bytes, limits.marked, ps)
    {
      WithinByPaths(h, e, limits, marks, ps);
    }
    forall ps: seq<Path>
      ensures Lists(PayloadRules(h), e, ps) <==> PropertyPaths(h, e.value, ps)
    {
      ListsByPaths(h, e, ps);
    }
  }

  /**
   isBoundedUnknownPayload accepts exactly if the property paths from the input can be listed, at most 80000
   of them and none longer than 112, no two lead to the same object, and the values add up to the bytes allowed.
   */
  lemma PayloadExactly(h: Heap, input: Value, maxBytes: nat)
    ensures Bounded(PayloadRules(h), PlainLimits(maxBytes), Entry(input, 0, PLAIN)) <==>
            exists ps: seq<Path> :: PathsWithin(h, input, NoPath(), maxBytes, 0, ps)
  {
    hide Bounded, PathsWithin;
    forall p: Path | Reached(PayloadRules(h), Entry(input, 0, PLAIN), p).Some?
      ensures !Reached(PayloadRules(h), Entry(input, 0, PLAIN), p).value.context.renderModel
    {
      PlainStays(h, Entry(input, 0, PLAIN), p);
    }
    BoundedByPaths(h, Entry(input, 0, PLAIN), PlainLimits(maxBytes), NoPath());
  }

  lemma {:induction false} PlainStays(h: Heap, e: Entry, p: Path)
    requires e.context == PLAIN && Reached(PayloadRules(h), e, p).Some?
    ensures !Reached(PayloadRules(h), e, p).value.context.renderModel
    decreases |p|
  {
    if p != [] {
      PlainStays(h, ChildEntries(h, e)[p[0]], p[1..]);
    }
  }

  /** The same for the whole body: 832 KiB in all, and 512 KiB on the paths whose first name is renderModel. */
  lemma BodyExactly(h: Heap, input: Value)
    ensures Bounded(PayloadRules(h), BODY_LIMITS, Entry(input, 0, BODY)) <==>
            exists ps: seq<Path> :: PathsWithin(h, input, RenderModelPaths(h, input), 851968, 524288, ps)
  {
    hide Bounded, PathsWithin;
    var marks := RenderModelPaths(h, input);
    forall p: Path | ValueAt(h, input, p).Some?
      ensures marks(p) <==> Reached(PayloadRules(h), Entry(input, 0, BODY), p).Some?
                            && Reached(PayloadRules(h), Entry(input, 0, BODY), p).value.context.renderModel
    {
      ReportedName(h, Entry(input, 0, BODY), p);
      var keys, name := KeysAlong(h, input, p), Reached(PayloadRules(h), Entry(input, 0, BODY), p).value.context.path;
      hide FirstName;
      if FirstName(keys, "renderModel") {
        FirstNameUnique(keys, name, "renderModel");
      }
    }
    assert BODY_LIMITS.bytes == 851968 && BODY_LIMITS.marked == 524288;
    BoundedByPaths(h, Entry(input, 0, BODY), BODY_LIMITS, marks);
    assert Entry(input, 0, BODY).value == input;
  }

  /** The value a path of child numbers leads to. */
  function KidAt(h: Heap, v: Value, p: Path): Option<Value>
    decreases |p|
  {
    if p == [] then Some(v)
    else if p[0] < |Kids(h, v)| then KidAt(h, Kids(h, v)[p[0]].value, p[1..])
    else None
  }

  /** Each path of child numbers from the root occurs once. */
  ghost predicate KidPaths(h: Heap, root: Value, ps: seq<Path>) {
    Distinct(ps) && forall p: Path :: p in ps <==> KidAt(h, root, p).Some?
  }

  ghost predicate KidsWithin(h: Heap, root: Value, ps: seq<Path>) {
    KidPaths(h, root, ps) && |ps| <= 10000 && forall p: Path | p in ps :: |p| <= 32
  }

  lemma {:induction false} ReachesKid(h: Heap, e: PlainEntry, p: Path)
    ensures Reached(HastRules(h), e, p).Some? <==> KidAt(h, e.value, p).Some?
    ensures Reached(HastRules(h), e, p).Some? ==> Reached(HastRules(h), e, p).value.depth == e.depth + |p|
    decreases |p|
  {
    hide Kids;
    if p != [] && p[0] < |Kids(h, e.value)| {
      ReachesKid(h, KidEntries(h, e)[p[0]], p[1..]);
    }
  }

  lemma {:induction false} KidsWeigh(h: Heap, e: PlainEntry, ps: seq<Path>)
    requires forall p: Path | p in ps :: KidAt(h, e.value, p).Some?
    ensures Sum((p: Path) => WeightAt(HastRules(h), e, p), ps) == Nodes(|ps|)
    decreases |ps|
  {
    if ps != [] {
      var n := |ps| - 1;
      assert ps == ps[..n] + [ps[n]] && ps[n] in ps;
      ReachesKid(h, e, ps[n]);
      hide Reached, KidAt;
      KidsWeigh(h, e, ps[..n]);
    }
  }

  lemma KidListsByPaths(h: Heap, root: Value, ps: seq<Path>)
    ensures Lists(HastRules(h), PlainEntry(root, 0), ps) <==> KidPaths(h, root, ps)
  {
    var e := PlainEntry(root, 0);
    forall p: Path
      ensures Reached(HastRules(h), e, p).Some? <==> KidAt(h, root, p).Some?
    {
      ReachesKid(h, e, p);
    }
    hide Reached, KidAt, Distinct;
  }

  lemma KidsFitByPaths(h: Heap, root: Value)
    ensures AllFit(HastRules(h), PlainEntry(root, 0)) <==> forall p: Path | KidAt(h, root, p).Some? :: |p| <= 32
  {
    var e := PlainEntry(root, 0);
    forall p: Path
      ensures Reached(HastRules(h), e, p).Some? <==> KidAt(h, root, p).Some?
      ensures Reached(HastRules(h), e, p).Some? ==> Reached(HastRules(h), e, p).value.depth == |p|
    {
      ReachesKid(h, e, p);
    }
    hide Reached, KidAt;
  }

  lemma KidsWithinByPaths(h: Heap, root: Value, ps: seq<Path>)
    requires KidPaths(h, root, ps)
    ensures Within(Sum((p: Path) => WeightAt(HastRules(h), PlainEntry(root, 0), p), ps), HAST_LIMITS) <==> |ps| <= 10000
  {
    hide KidAt, Distinct, Sum, WeightAt;
    KidsWeigh(h, PlainEntry(root, 0), ps);
  }

  /** The children of a root are within the limits exactly if the paths to them are at most 10000 and none is longer than 32. */
  lemma HastExactly(h: Heap, root: Value)
    ensures Bounded(HastRules(h), HAST_LIMITS, PlainEntry(root, 0)) <==> exists ps: seq<Path> :: KidsWithin(h, root, ps)
  {
    var e := PlainEntry(root, 0);
    hide Run, Bounded, AllFit, Lists, Within, Sum, Distinct, KidAt;
    assert Lawful(HastRules(h));
    RunDecides(HastRules(h), HAST_LIMITS, e);
    RunListsPaths(HastRules(h), HAST_LIMITS, e);
    forall ps: seq<Path>
      ensures AllFit(HastRules(h), e) && ListsWithin(HastRules(h), HAST_LIMITS, e, ps) <==> KidsWithin(h, root, ps)
    {
      KidListsByPaths(h, root, ps);
      KidsFitByPaths(h, root);
      if KidPaths(h, root, ps) {
        KidsWithinByPaths(h, root, ps);
      }
    }
  }

  // ---------------------------------------------------------------------------
  // The path of a failure

  /** What a run rejects is an entry below the one it started from. */
  lemma {:induction false} RejectedReached<E(!new)>(rules: Rules<E>, limits: Limits, e: E, stack: seq<E>, ps: seq<Path>, acc: Total)
    returns (p: Path)
    requires |ps| == |stack| && forall i :: 0 <= i < |stack| ==> Reached(rules, e, ps[i]) == Some(stack[i])
    requires Run(rules, limits, stack, acc).Rejected?
    ensures Reached(rules, e, p) == Some(Run(rules, limits, stack, acc).entry)
    decreases limits.values - acc.values
  {
    var n := |stack| - 1;
    p := ps[n];
    if Run(rules, limits, stack, acc) != Rejected(stack[n]) {
      var next := rules.expand(stack[n]);
      var qs := seq(|next|, i requires 0 <= i < |next| => ps[n] + [i]);
      forall i | 0 <= i < |next|
        ensures Reached(rules, e, qs[i]) == Some(next[i])
      {
        ReachedOn(rules, e, ps[n], i);
      }
      hide Reached;
      p := RejectedReached(rules, limits, e, stack[..n] + next, ps[..n] + qs, Plus(acc, rules.weigh(stack[n])));
    }
  }

  lemma {:induction false} ReachedOn<E(!new)>(rules: Rules<E>, e: E, p: Path, i: nat)
    requires Reached(rules, e, p).Some? && i < |rules.expand(Reached(rules, e, p).value)|
    ensures Reached(rules, e, p + [i]) == Some(rules.expand(Reached(rules, e, p).value)[i])
    decreases |p|
  {
    if p == [] {
      assert [] + [i] == [i] && [i][1..] == [];
    } else {
      assert (p + [i])[1..] == p[1..] + [i];
      ReachedOn(rules, rules.expand(e)[p[0]], p[1..], i);
    }
  }

  /** A failure of the body check is reported as renderModel, or under the first name on a path of the body. */
  lemma FailureNamesPath(h: Heap, input: Value)
    ensures
      var failed := PathOf(Run(PayloadRules(h), BODY_LIMITS, [Entry(input, 0, BODY)], NOTHING));
      failed.Some? && failed.value != "renderModel" ==>
        exists p: Path :: ValueAt(h, input, p).Some? && FirstName(KeysAlong(h, input, p), failed.value)
  {
    hide Run, FirstName;
    var e := Entry(input, 0, BODY);
    var verdict := Run(PayloadRules(h), BODY_LIMITS, [e], NOTHING);
    if verdict.Rejected? {
      var p := RejectedReached(PayloadRules(h), BODY_LIMITS, e, [e], [[]], NOTHING);
      ReachesValue(h, e, p);
      ReportedName(h, e, p);
    }
  }
}
