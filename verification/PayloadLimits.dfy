/**
 The checks made on an unknown payload before any schema looks at it.  The payload is a heap of objects
 that may share parts or refer back to themselves.
 */
module PayloadLimits {
  import opened Common
  import opened Worklist

  // ---------------------------------------------------------------------------
  // The heap

  /** A string with its length in UTF-8, an object, or any other value. */
  datatype Value = Text(bytes: nat) | Ref(id: nat) | Other

  /** An own enumerable property; the elements of an array have the empty key. */
  datatype Property = Property(key: string, keyBytes: nat, value: Value)

  datatype Object = Object(isArray: bool, properties: seq<Property>)

  type Heap = map<nat, Object>

  const AST_NODES: nat := 10000
  const NESTING_DEPTH: nat := 32
  const MAX_VALUES: nat := AST_NODES * 8
  const MAX_DEPTH: nat := NESTING_DEPTH * 3 + 16
  const RENDER_BYTES: nat := 512 * 1024
  const SOURCE_BYTES: nat := 256 * 1024
  const BODY_BYTES: nat := SOURCE_BYTES + RENDER_BYTES + 64 * 1024

  function Properties(h: Heap, v: Value): seq<Property> {
    if v.Ref? && v.id in h then h[v.id].properties else []
  }

  /** asUnknownRecord. */
  predicate IsRecord(h: Heap, v: Value) {
    v.Ref? && v.id in h && !h[v.id].isArray
  }

  predicate IsArray(h: Heap, v: Value) {
    v.Ref? && v.id in h && h[v.id].isArray
  }

  function KeyBytes(properties: seq<Property>): nat {
    if properties == [] then 0
    else KeyBytes(properties[..|properties| - 1]) + properties[|properties| - 1].keyBytes
  }

  /** What a value adds to the byte count: its text, its keys, or eight bytes. */
  function OwnBytes(h: Heap, v: Value): nat {
    match v
    case Text(bytes) => bytes
    case Ref(_) => KeyBytes(Properties(h, v))
    case Other => 8
  }

  /** The value of a property; reading one that is absent yields undefined. */
  function Get(properties: seq<Property>, key: string): Value {
    if properties == [] then Other
    else if properties[|properties| - 1].key == key then properties[|properties| - 1].value
    else Get(properties[..|properties| - 1], key)
  }

  // ---------------------------------------------------------------------------
  // The rules of the two payload checks

  /** Where an entry was found: the path reported for it, and whether it counts as render model. */
  datatype Context = Context(path: string, renderModel: bool)

  const PLAIN := Context("", false)
  const BODY := Context("body", false)

  function ChildContext(c: Context, key: string): Context {
    var marked := c.renderModel || (c.path == "body" && key == "renderModel");
    Context(if c.path == "body" && key != "" then key else if marked then "renderModel" else c.path, marked)
  }

  datatype Entry = Entry(value: Value, depth: nat, context: Context)

  function EntryOf(p: Property, parent: Entry): Entry {
    Entry(p.value, parent.depth + 1, ChildContext(parent.context, p.key))
  }

  function ChildEntries(h: Heap, e: Entry): (r: seq<Entry>)
    ensures |r| == |Properties(h, e.value)|
    ensures forall i :: 0 <= i < |r| ==> r[i] == EntryOf(Properties(h, e.value)[i], e)
  {
    seq(|Properties(h, e.value)|, i requires 0 <= i < |Properties(h, e.value)| => EntryOf(Properties(h, e.value)[i], e))
  }

  function Identity(v: Value): multiset<nat> {
    if v.Ref? then multiset{v.id} else multiset{}
  }

  function OwnTotal(h: Heap, e: Entry): Total {
    Total(1, OwnBytes(h, e.value), if e.context.renderModel then OwnBytes(h, e.value) else 0, Identity(e.value))
  }

  function PayloadRules(h: Heap): Rules<Entry> {
    Rules((e: Entry) => ChildEntries(h, e), (e: Entry) => OwnTotal(h, e), (e: Entry) => e.depth <= MAX_DEPTH)
  }

  lemma PayloadLawful(h: Heap)
    ensures Lawful(PayloadRules(h))
  {
  }

  // ---------------------------------------------------------------------------
  // isBoundedUnknownPayload

  datatype PlainEntry = PlainEntry(value: Value, depth: nat)

  function Lift(stack: seq<PlainEntry>): (r: seq<Entry>)
    ensures |r| == |stack|
    ensures forall i :: 0 <= i < |stack| ==> r[i] == Entry(stack[i].value, stack[i].depth, PLAIN)
  {
    seq(|stack|, i requires 0 <= i < |stack| => Entry(stack[i].value, stack[i].depth, PLAIN))
  }

  function PlainLimits(maxBytes: nat): Limits {
    Limits(MAX_VALUES, maxBytes, 0)
  }

  /** Pushing the properties of an object, counting the bytes of their keys. */
  method PushProperties(h: Heap, stack: seq<PlainEntry>, current: PlainEntry) returns (r: seq<PlainEntry>, keyBytes: nat)
    ensures Lift(r) == Lift(stack) + ChildEntries(h, Entry(current.value, current.depth, PLAIN))
    ensures keyBytes == KeyBytes(Properties(h, current.value))
  {
    hide Lift, ChildEntries;
    var properties := Properties(h, current.value);
    ghost var parent := Entry(current.value, current.depth, PLAIN);
    r, keyBytes := stack, 0;
    for i := 0 to |properties|
      invariant |r| == |stack| + i
      invariant r[..|stack|] == stack
      invariant forall k :: 0 <= k < i ==> r[|stack| + k] == PlainEntry(properties[k].value, current.depth + 1)
      invariant keyBytes == KeyBytes(properties[..i])
    {
      assert properties[..i + 1][..i] == properties[..i];
      keyBytes := keyBytes + properties[i].keyBytes;
      r := r + [PlainEntry(properties[i].value, current.depth + 1)];
    }
    assert properties[..|properties|] == properties;
    LiftsChildren(h, stack, parent, r);
  }

  lemma LiftsChildren(h: Heap, stack: seq<PlainEntry>, parent: Entry, r: seq<PlainEntry>)
    requires parent.context == PLAIN && |r| == |stack| + |Properties(h, parent.value)| && r[..|stack|] == stack
    requires forall k :: 0 <= k < |Properties(h, parent.value)| ==>
               r[|stack| + k] == PlainEntry(Properties(h, parent.value)[k].value, parent.depth + 1)
    ensures Lift(r) == Lift(stack) + ChildEntries(h, parent)
  {
    hide Properties;
    forall k | 0 <= k < |r|
      ensures Lift(r)[k] == (Lift(stack) + ChildEntries(h, parent))[k]
    {
      if k < |stack| {
        assert r[k] == r[..|stack|][k];
      } else {
        assert r[k] == r[|stack| + (k - |stack|)];
      }
    }
  }

  /** The account the loop keeps in its variables. */
  function Account(values: nat, bytes: nat, marked: nat, seen: set<nat>): Total {
    Total(values, bytes, marked, multiset(seen))
  }

  /** The stack after a turn: only objects are replaced by what they hold. */
  function Replaced(h: Heap, stack: seq<Entry>): seq<Entry>
    requires stack != []
  {
    var e := stack[|stack| - 1];
    if e.value.Ref? then stack[..|stack| - 1] + ChildEntries(h, e) else stack[..|stack| - 1]
  }

  function Met(seen: set<nat>, v: Value): set<nat> {
    if v.Ref? then seen + {v.id} else seen
  }

  function Marked(e: Entry, own: nat): nat {
    if e.context.renderModel then own else 0
  }

  /** What one turn of either loop does to the run it stands for. */
  lemma OneTurn(h: Heap, limits: Limits, stack: seq<Entry>, values: nat, bytes: nat, marked: nat, seen: set<nat>)
    requires stack != []
    ensures
      var e := stack[|stack| - 1];
      var own := OwnBytes(h, e.value);
      Run(PayloadRules(h), limits, stack, Account(values, bytes, marked, seen)) ==
      if values >= limits.values || e.depth > MAX_DEPTH || (e.value.Ref? && e.value.id in seen) then Rejected(e)
      else if marked + Marked(e, own) > limits.marked then RejectedMarked
      else if bytes + own > limits.bytes then Rejected(e)
      else Run(PayloadRules(h), limits, Replaced(h, stack),
               Account(values + 1, bytes + own, marked + Marked(e, own), Met(seen, e.value)))
  {
    hide Run, OwnBytes;
    var e := stack[|stack| - 1];
    Unfold(PayloadRules(h), limits, stack, Account(values, bytes, marked, seen));
    MetRepeats(h, e, values, bytes, marked, seen);
    assert stack[..|stack| - 1] + ChildEntries(h, e) == Replaced(h, stack);
    if e.value.Ref? ==> e.value.id !in seen {
      MetAdds(h, e, values, bytes, marked, seen);
    }
  }

  lemma Unfold<E(!new)>(rules: Rules<E>, limits: Limits, stack: seq<E>, acc: Total)
    requires stack != []
    ensures
      var e := stack[|stack| - 1];
      var w := rules.weigh(e);
      Run(rules, limits, stack, acc) ==
      if acc.values >= limits.values || w.values == 0 || !rules.fits(e) || Repeats(acc, w) then Rejected(e)
      else if acc.marked + w.marked > limits.marked then RejectedMarked
      else if acc.bytes + w.bytes > limits.bytes then Rejected(e)
      else Run(rules, limits, stack[..|stack| - 1] + rules.expand(e), Plus(acc, w))
  {
  }

  lemma MetRepeats(h: Heap, e: Entry, values: nat, bytes: nat, marked: nat, seen: set<nat>)
    ensures Repeats(Account(values, bytes, marked, seen), OwnTotal(h, e)) <==> e.value.Ref? && e.value.id in seen
  {
    assert e.value.Ref? ==> e.value.id in OwnTotal(h, e).ids;
  }

  lemma MetAdds(h: Heap, e: Entry, values: nat, bytes: nat, marked: nat, seen: set<nat>)
    requires e.value.Ref? ==> e.value.id !in seen
    ensures
      var own := OwnBytes(h, e.value);
      Plus(Account(values, bytes, marked, seen), OwnTotal(h, e)) ==
      Account(values + 1, bytes + own, marked + Marked(e, own), Met(seen, e.value))
  {
    hide OwnBytes;
    if e.value.Ref? {
      assert multiset(seen) + multiset{e.value.id} == multiset(seen + {e.value.id});
    }
  }

  method IsBoundedUnknownPayload(h: Heap, input: Value, maxBytes: nat) returns (ok: bool)
    ensures ok <==> Bounded(PayloadRules(h), PlainLimits(maxBytes), Entry(input, 0, PLAIN))
  {
    hide Run, Bounded;
    ghost var start, limits := Entry(input, 0, PLAIN), PlainLimits(maxBytes);
    var stack := [PlainEntry(input, 0)];
    var seen: set<nat> := {};
    var bytes: nat, values: nat := 0, 0;
    assert Lift(stack) == [start];
    BoundedIsRun(h, start, limits);
    while stack != []
      invariant values <= MAX_VALUES
      invariant Run(PayloadRules(h), limits, Lift(stack), Account(values, bytes, 0, seen)) ==
                Run(PayloadRules(h), limits, [start], Account(0, 0, 0, {}))
      decreases MAX_VALUES - values
    {
      OneTurn(h, limits, Lift(stack), values, bytes, 0, seen);
      var current := stack[|stack| - 1];
      assert Lift(stack)[..|stack| - 1] == Lift(stack[..|stack| - 1]);
      stack := stack[..|stack| - 1];
      values := values + 1;
      if values > MAX_VALUES || current.depth > MAX_DEPTH {
        return false;
      }
      match current.value {
        case Text(n) => bytes := bytes + n;
        case Ref(id) =>
          if id in seen {
            return false;
          }
          seen := seen + {id};
          var keyBytes;
          stack, keyBytes := PushProperties(h, stack, current);
          bytes := bytes + keyBytes;
        case Other => bytes := bytes + 8;
      }
      if bytes > maxBytes {
        return false;
      }
    }
    EmptyRun(h, limits, Account(values, bytes, 0, seen));
    return true;
  }

  lemma EmptyRun(h: Heap, limits: Limits, acc: Total)
    ensures Run(PayloadRules(h), limits, [], acc) == Accepted
  {
  }

  lemma BoundedIsRun(h: Heap, e: Entry, limits: Limits)
    ensures Bounded(PayloadRules(h), limits, e) <==> Run(PayloadRules(h), limits, [e], Account(0, 0, 0, {})) == Accepted
  {
    hide Run, Bounded;
    PayloadLawful(h);
    RunDecides(PayloadRules(h), limits, e);
    NothingMet();
  }

  lemma NothingMet()
    ensures Account(0, 0, 0, {}) == NOTHING
  {
    var none: set<nat> := {};
    assert multiset(none) == multiset{};
  }

  // ---------------------------------------------------------------------------
  // preflightSafeDocumentBody

  function PathOf(v: Verdict<Entry>): Option<string> {
    match v
    case Accepted => None
    case Rejected(e) => Some(e.context.path)
    case RejectedMarked => Some("renderModel")
  }

  const BODY_LIMITS := Limits(MAX_VALUES, BODY_BYTES, RENDER_BYTES)

  method PushEntries(h: Heap, stack: seq<Entry>, current: Entry) returns (r: seq<Entry>, keyBytes: nat, markedBytes: nat)
    ensures r == stack + ChildEntries(h, current)
    ensures keyBytes == KeyBytes(Properties(h, current.value))
    ensures markedBytes == Marked(current, keyBytes)
  {
    var properties := Properties(h, current.value);
    r, keyBytes, markedBytes := stack, 0, 0;
    for i := 0 to |properties|
      invariant r == stack + ChildEntries(h, current)[..i]
      invariant keyBytes == KeyBytes(properties[..i])
      invariant markedBytes == Marked(current, keyBytes)
    {
      assert properties[..i + 1][..i] == properties[..i];
      keyBytes := keyBytes + properties[i].keyBytes;
      if current.context.renderModel {
        markedBytes := markedBytes + properties[i].keyBytes;
      }
      assert ChildEntries(h, current)[..i + 1] == ChildEntries(h, current)[..i] + [ChildEntries(h, current)[i]];
      r := r + [EntryOf(properties[i], current)];
    }
    assert properties[..|properties|] == properties;
    assert ChildEntries(h, current)[..|properties|] == ChildEntries(h, current);
  }

  /** The loop of the body check: the path of the first entry past a limit, if any. */
  method CheckBody(h: Heap, input: Value) returns (failed: Option<string>)
    ensures failed == PathOf(Run(PayloadRules(h), BODY_LIMITS, [Entry(input, 0, BODY)], NOTHING))
  {
    hide Run;
    ghost var start := Entry(input, 0, BODY);
    var stack := [Entry(input, 0, BODY)];
    var seen: set<nat> := {};
    var values: nat, bodyBytes: nat, renderModelBytes: nat := 0, 0, 0;
    NothingMet();
    while stack != []
      invariant values <= MAX_VALUES
      invariant Run(PayloadRules(h), BODY_LIMITS, stack, Account(values, bodyBytes, renderModelBytes, seen)) ==
                Run(PayloadRules(h), BODY_LIMITS, [start], NOTHING)
      decreases MAX_VALUES - values
    {
      OneTurn(h, BODY_LIMITS, stack, values, bodyBytes, renderModelBytes, seen);
      var current := stack[|stack| - 1];
      stack := stack[..|stack| - 1];
      values := values + 1;
      if values > MAX_VALUES || current.depth > MAX_DEPTH {
        return Some(current.context.path);
      }
      match current.value {
        case Text(n) =>
          bodyBytes := bodyBytes + n;
          renderModelBytes := renderModelBytes + Marked(current, n);
        case Ref(id) =>
          if id in seen {
            return Some(current.context.path);
          }
          seen := seen + {id};
          var keyBytes, markedBytes;
          stack, keyBytes, markedBytes := PushEntries(h, stack, current);
          bodyBytes := bodyBytes + keyBytes;
          renderModelBytes := renderModelBytes + markedBytes;
        case Other =>
          bodyBytes := bodyBytes + 8;
          renderModelBytes := renderModelBytes + Marked(current, 8);
      }
      if renderModelBytes > RENDER_BYTES {
        return Some("renderModel");
      }
      if bodyBytes > BODY_BYTES {
        return Some(current.context.path);
      }
    }
    EmptyRun(h, BODY_LIMITS, Account(values, bodyBytes, renderModelBytes, seen));
    return None;
  }

  // ---------------------------------------------------------------------------
  // preflightSafeHastRoot

  /** The elements of a record's children array. */
  function Kids(h: Heap, v: Value): seq<Property> {
    if IsRecord(h, v) && IsArray(h, Get(Properties(h, v), "children"))
    then Properties(h, Get(Properties(h, v), "children"))
    else []
  }

  function KidEntries(h: Heap, e: PlainEntry): (r: seq<PlainEntry>)
    ensures |r| == |Kids(h, e.value)|
    ensures forall i :: 0 <= i < |r| ==> r[i] == PlainEntry(Kids(h, e.value)[i].value, e.depth + 1)
  {
    seq(|Kids(h, e.value)|, i requires 0 <= i < |Kids(h, e.value)| => PlainEntry(Kids(h, e.value)[i].value, e.depth + 1))
  }

  const ONE_VALUE := Total(1, 0, 0, multiset{})
  const HAST_LIMITS := Limits(AST_NODES, 0, 0)

  function HastRules(h: Heap): Rules<PlainEntry> {
    Rules((e: PlainEntry) => KidEntries(h, e), (e: PlainEntry) => ONE_VALUE, (e: PlainEntry) => e.depth <= NESTING_DEPTH)
  }

  /** The second loop: the tree hanging off the children arrays stays within the limits. */
  method CheckHast(h: Heap, root: Value) returns (ok: bool)
    ensures ok <==> Bounded(HastRules(h), HAST_LIMITS, PlainEntry(root, 0))
  {
    hide Run, Bounded;
    var stack := [PlainEntry(root, 0)];
    var nodes: nat := 0;
    HastBoundedIsRun(h, root);
    while stack != []
      invariant nodes <= AST_NODES
      invariant Run(HastRules(h), HAST_LIMITS, stack, Nodes(nodes)) ==
                Run(HastRules(h), HAST_LIMITS, [PlainEntry(root, 0)], Nodes(0))
      decreases AST_NODES - nodes
    {
      HastTurn(h, stack, nodes);
      var current := stack[|stack| - 1];
      stack := stack[..|stack| - 1];
      nodes := nodes + 1;
      if nodes > AST_NODES || current.depth > NESTING_DEPTH {
        return false;
      }
      stack := stack + KidEntries(h, current);
    }
    HastEmpty(h, nodes);
    return true;
  }

  function Nodes(n: nat): Total {
    Total(n, 0, 0, multiset{})
  }

  lemma HastTurn(h: Heap, stack: seq<PlainEntry>, nodes: nat)
    requires stack != []
    ensures
      var e := stack[|stack| - 1];
      Run(HastRules(h), HAST_LIMITS, stack, Nodes(nodes)) ==
      if nodes >= AST_NODES || e.depth > NESTING_DEPTH then Rejected(e)
      else Run(HastRules(h), HAST_LIMITS, stack[..|stack| - 1] + KidEntries(h, e), Nodes(nodes + 1))
  {
    hide Run;
    Unfold(HastRules(h), HAST_LIMITS, stack, Nodes(nodes));
    assert Plus(Nodes(nodes), ONE_VALUE) == Nodes(nodes + 1);
  }

  lemma HastEmpty(h: Heap, nodes: nat)
    ensures Run(HastRules(h), HAST_LIMITS, [], Nodes(nodes)) == Accepted
  {
  }

  lemma HastBoundedIsRun(h: Heap, root: Value)
    ensures Bounded(HastRules(h), HAST_LIMITS, PlainEntry(root, 0)) <==>
            Run(HastRules(h), HAST_LIMITS, [PlainEntry(root, 0)], Nodes(0)) == Accepted
  {
    hide Run, Bounded;
    assert Lawful(HastRules(h));
    RunDecides(HastRules(h), HAST_LIMITS, PlainEntry(root, 0));
  }

  ghost predicate SafeHastRoot(h: Heap, input: Value) {
    IsRecord(h, input) ==>
      Bounded(PayloadRules(h), PlainLimits(RENDER_BYTES), Entry(input, 0, PLAIN))
      && Bounded(HastRules(h), HAST_LIMITS, PlainEntry(input, 0))
  }

  method PreflightSafeHastRoot(h: Heap, input: Value) returns (ok: bool)
    ensures ok <==> SafeHastRoot(h, input)
  {
    hide Bounded;
    if !IsRecord(h, input) {
      return true;
    }
    ok := IsBoundedUnknownPayload(h, input, RENDER_BYTES);
    if ok {
      ok := CheckHast(h, input);
    }
  }

  /** The root of the render model, when it is a record inside a record. */
  function RenderRoot(h: Heap, input: Value): Value {
    var renderModel := Get(Properties(h, input), "renderModel");
    if IsRecord(h, renderModel) then Get(Properties(h, renderModel), "root") else Other
  }

  /** Property `k` is the last one with that key. */
  predicate LastNamed(properties: seq<Property>, k: nat, key: string) {
    k < |properties| && properties[k].key == key && forall j :: k < j < |properties| ==> properties[j].key != key
  }

  /** `r` is the record `h` holds in the property `key` of the record `v`. */
  ghost predicate RecordIn(h: Heap, v: Value, key: string, r: Value) {
    && v.Ref? && v.id in h && !h[v.id].isArray
    && r.Ref? && r.id in h && !h[r.id].isArray
    && exists k: nat :: LastNamed(h[v.id].properties, k, key) && h[v.id].properties[k].value == r
  }

  /** `r` is the record input.renderModel.root. */
  ghost predicate IsRenderRoot(h: Heap, input: Value, r: Value) {
    exists renderModel :: RecordIn(h, input, "renderModel", renderModel) && RecordIn(h, renderModel, "root", r)
  }

  lemma {:induction false} GetIsLast(properties: seq<Property>, key: string)
    ensures forall k: nat | LastNamed(properties, k, key) :: Get(properties, key) == properties[k].value
    ensures (exists k: nat :: LastNamed(properties, k, key)) || Get(properties, key) == Other
    ensures (forall k :: 0 <= k < |properties| ==> properties[k].key != key) ==> Get(properties, key) == Other
  {
    if properties != [] {
      var n := |properties| - 1;
      if properties[n].key == key {
        assert LastNamed(properties, n, key);
      } else {
        GetIsLast(properties[..n], key);
        forall k: nat
          ensures LastNamed(properties, k, key) <==> LastNamed(properties[..n], k, key)
        {
        }
      }
    }
  }

  lemma RecordInIsGet(h: Heap, v: Value, key: string, r: Value)
    ensures RecordIn(h, v, key, r) <==> IsRecord(h, v) && IsRecord(h, r) && Get(Properties(h, v), key) == r
  {
    GetIsLast(Properties(h, v), key);
  }

  lemma RenderRootExactly(h: Heap, input: Value, r: Value)
    requires IsRecord(h, input)
    ensures IsRenderRoot(h, input, r) <==> IsRecord(h, r) && r == RenderRoot(h, input)
  {
    hide RecordIn, IsRecord, Get;
    forall renderModel
      ensures RecordIn(h, input, "renderModel", renderModel) && RecordIn(h, renderModel, "root", r) <==>
              && renderModel == Get(Properties(h, input), "renderModel")
              && IsRecord(h, renderModel) && IsRecord(h, r) && Get(Properties(h, renderModel), "root") == r
    {
      RecordInIsGet(h, input, "renderModel", renderModel);
      RecordInIsGet(h, renderModel, "root", r);
    }
    var renderModel := Get(Properties(h, input), "renderModel");
    if IsRecord(h, r) && r == RenderRoot(h, input) {
      OtherIsNoRecord(h);
      assert RecordIn(h, input, "renderModel", renderModel);
    }
  }

  lemma OtherIsNoRecord(h: Heap)
    ensures !IsRecord(h, Other)
  {
  }

  lemma SafeRenderRoot(h: Heap, input: Value)
    requires IsRecord(h, input)
    ensures SafeHastRoot(h, RenderRoot(h, input)) <==> forall r | IsRenderRoot(h, input, r) :: SafeHastRoot(h, r)
  {
    forall r: Value
      ensures IsRenderRoot(h, input, r) <==> IsRecord(h, r) && r == RenderRoot(h, input)
    {
      RenderRootExactly(h, input, r);
    }
    hide IsRenderRoot, Bounded, RenderRoot, IsRecord;
  }

  /** None is success, otherwise the path reported. */
  method PreflightSafeDocumentBody(h: Heap, input: Value) returns (failed: Option<string>)
    ensures failed.None? <==>
              && input.Ref? && input.id in h && !h[input.id].isArray
              && (forall r | IsRenderRoot(h, input, r) :: SafeHastRoot(h, r))
              && Bounded(PayloadRules(h), BODY_LIMITS, Entry(input, 0, BODY))
    ensures !(input.Ref? && input.id in h && !h[input.id].isArray) ==> failed == Some("body")
    ensures (exists r :: IsRenderRoot(h, input, r) && !SafeHastRoot(h, r)) ==> failed == Some("renderModel.root")
  {
    hide Bounded, SafeHastRoot, Run;
    if !IsRecord(h, input) {
      return Some("body");
    }
    var ok := PreflightSafeHastRoot(h, RenderRoot(h, input));
    SafeRenderRoot(h, input);
    if !ok {
      return Some("renderModel.root");
    }
    BoundedIsRun(h, Entry(input, 0, BODY), BODY_LIMITS);
    NothingMet();
    failed := CheckBody(h, input);
  }

  // ---------------------------------------------------------------------------
  // Shared and cyclic objects

  /** The value a path of property numbers leads to. */
  function ValueAt(h: Heap, v: Value, path: seq<nat>): Option<Value>
    decreases |path|
  {
    if path == [] then Some(v)
    else if path[0] < |Properties(h, v)| then ValueAt(h, Properties(h, v)[path[0]].value, path[1..])
    else None
  }

  lemma {:induction false} ReachesValue(h: Heap, e: Entry, path: seq<nat>)
    ensures Reached(PayloadRules(h), e, path).Some? <==> ValueAt(h, e.value, path).Some?
    ensures ValueAt(h, e.value, path).Some? ==> Reached(PayloadRules(h), e, path).value.value == ValueAt(h, e.value, path).value
    decreases |path|
  {
    if path != [] && path[0] < |Properties(h, e.value)| {
      ReachesValue(h, ChildEntries(h, e)[path[0]], path[1..]);
    }
  }

  /** An object reached from the input along two different property paths is rejected whatever the limits. */
  lemma SharedObjectRejected(h: Heap, e: Entry, p: seq<nat>, q: seq<nat>, id: nat, limits: Limits)
    requires p != q && ValueAt(h, e.value, p) == Some(Ref(id)) && ValueAt(h, e.value, q) == Some(Ref(id))
    ensures !Bounded(PayloadRules(h), limits, e)
  {
    ReachesValue(h, e, p);
    ReachesValue(h, e, q);
    var a, b := Reached(PayloadRules(h), e, p).value, Reached(PayloadRules(h), e, q).value;
    assert id in OwnTotal(h, a).ids && id in OwnTotal(h, b).ids;
    hide Bounded, Reached;
    ReachedTwiceRejected(PayloadRules(h), e, p, q, id, limits);
  }

  lemma {:induction false} ValueBeyond(h: Heap, v: Value, p: seq<nat>, c: seq<nat>)
    requires ValueAt(h, v, p).Some?
    ensures ValueAt(h, v, p + c) == ValueAt(h, ValueAt(h, v, p).value, c)
    decreases |p|
  {
    if p == [] {
      assert p + c == c;
    } else {
      assert (p + c)[1..] == p[1..] + c;
      ValueBeyond(h, Properties(h, v)[p[0]].value, p[1..], c);
    }
  }

  /** So is an object anywhere below the input that leads back to itself, however long the way round. */
  lemma CycleRejected(h: Heap, e: Entry, p: seq<nat>, c: seq<nat>, id: nat, limits: Limits)
    requires c != [] && ValueAt(h, e.value, p) == Some(Ref(id)) && ValueAt(h, Ref(id), c) == Some(Ref(id))
    ensures !Bounded(PayloadRules(h), limits, e)
  {
    ValueBeyond(h, e.value, p, c);
    assert |p + c| != |p|;
    SharedObjectRejected(h, e, p, p + c, id, limits);
  }

  /** In particular one that refers to itself. */
  lemma SelfReferenceRejected(h: Heap, e: Entry, i: nat, limits: Limits)
    requires e.value.Ref? && i < |Properties(h, e.value)| && Properties(h, e.value)[i].value == e.value
    ensures !Bounded(PayloadRules(h), limits, e)
  {
    assert [i][1..] == [];
    assert ValueAt(h, e.value, [i]) == Some(e.value);
    CycleRejected(h, e, [], [i], e.value.id, limits);
  }
}
