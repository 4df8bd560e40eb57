/**
 The conversion of a FileTree component to an indented listing: a stack machine over the tags, the
 trees its accepted inputs stand for, and a decoder that reads the listing back.
 */
module FileTree {
  import opened Common

  /** A non-blank line after trimming: one of the four tags, or anything else. */
  datatype Tag = OpenFolder(name: string) | LeafFolder(name: string) | FileTag(name: string) | CloseFolder | Unknown

  datatype Item = File(name: string) | Folder(name: string, children: seq<Item>)

  function Blanks(depth: nat): string {
    if depth == 0 then "" else Blanks(depth - 1) + "  "
  }

  // ---------------------------------------------------------------------------
  // The machine

  /** The lines printed from here on, if the remaining tags close exactly the open folders. */
  function Scan(tags: seq<Tag>, depth: nat): Option<seq<string>>
    decreases |tags|
  {
    if tags == [] then (if depth == 0 then Some([]) else None)
    else match tags[0]
      case OpenFolder(name) => Prefixed(Blanks(depth) + name + "/", Scan(tags[1..], depth + 1))
      case LeafFolder(name) => Prefixed(Blanks(depth) + name + "/", Scan(tags[1..], depth))
      case FileTag(name) => Prefixed(Blanks(depth) + name, Scan(tags[1..], depth))
      case CloseFolder => if depth == 0 then None else Scan(tags[1..], depth - 1)
      case Unknown => None
  }

  function Prefixed(line: string, rest: Option<seq<string>>): Option<seq<string>> {
    if rest.Some? then Some([line] + rest.value) else None
  }

  function Join(lines: seq<string>): string {
    if lines == [] then "" else if |lines| == 1 then lines[0] else lines[0] + "\n" + Join(lines[1..])
  }

  function Parsed(tags: seq<Tag>): Option<string> {
    var lines := Scan(tags, 0);
    if lines.Some? && lines.value != [] then Some(Join(lines.value)) else None
  }

  /** parseFileTree on the lines that are not blank; None is LEGACY_MDX_INVALID_FILETREE. */
  method ParseFileTree(tags: seq<Tag>) returns (listing: Option<string>)
    ensures listing == Parsed(tags)
  {
    var output: seq<string> := [];
    var folders: seq<string> := [];
    assert tags[0..] == tags;
    ContinuedEmpty([], Scan(tags, 0));
    for i := 0 to |tags|
      invariant Scan(tags, 0) == Continued(output, Scan(tags[i..], |folders|))
    {
      assert tags[i..][1..] == tags[i + 1..];
      match tags[i] {
        case OpenFolder(name) =>
          ContinuedMore(output, Blanks(|folders|) + name + "/", Scan(tags[i + 1..], |folders| + 1));
          output := output + [Blanks(|folders|) + name + "/"];
          folders := folders + [name];
        case LeafFolder(name) =>
          ContinuedMore(output, Blanks(|folders|) + name + "/", Scan(tags[i + 1..], |folders|));
          output := output + [Blanks(|folders|) + name + "/"];
        case FileTag(name) =>
          ContinuedMore(output, Blanks(|folders|) + name, Scan(tags[i + 1..], |folders|));
          output := output + [Blanks(|folders|) + name];
        case CloseFolder =>
          if folders == [] {
            return None;
          }
          folders := folders[..|folders| - 1];
        case Unknown =>
          return None;
      }
    }
    assert tags[|tags|..] == [];
    ContinuedEmpty(output, Scan([], |folders|));
    if folders != [] || output == [] {
      return None;
    }
    return Some(Join(output));
  }

  function Continued(output: seq<string>, rest: Option<seq<string>>): Option<seq<string>> {
    if rest.Some? then Some(output + rest.value) else None
  }

  lemma ContinuedEmpty(output: seq<string>, rest: Option<seq<string>>)
    ensures output == [] ==> Continued(output, rest) == rest
    ensures rest == Some([]) ==> Continued(output, rest) == Some(output)
  {
    if rest.Some? {
      assert [] + rest.value == rest.value && output + [] == output;
    }
  }

  lemma ContinuedMore(output: seq<string>, line: string, rest: Option<seq<string>>)
    ensures Continued(output, Prefixed(line, rest)) == Continued(output + [line], rest)
  {
    if rest.Some? {
      assert output + ([line] + rest.value) == output + [line] + rest.value;
    }
  }

  // ---------------------------------------------------------------------------
  // Well-nested tags

  function Listing(items: seq<Item>, depth: nat): seq<string>
    decreases items
  {
    if items == [] then [] else ItemListing(items[0], depth) + Listing(items[1..], depth)
  }

  function ItemListing(item: Item, depth: nat): seq<string>
    decreases item
  {
    match item
    case File(name) => [Blanks(depth) + name]
    case Folder(name, children) => [Blanks(depth) + name + "/"] + Listing(children, depth + 1)
  }

  /** The tags that spell one item; a folder without children has two spellings. */
  ghost predicate Spells(tags: seq<Tag>, item: Item)
    decreases item
  {
    match item
    case File(name) => tags == [FileTag(name)]
    case Folder(name, children) =>
      || (children == [] && tags == [LeafFolder(name)])
      || (|tags| >= 2 && tags[0] == OpenFolder(name) && tags[|tags| - 1] == CloseFolder
          && SpellsAll(tags[1..|tags| - 1], children))
  }

  ghost predicate SpellsAll(tags: seq<Tag>, items: seq<Item>)
    decreases items
  {
    if items == [] then tags == []
    else exists k :: 0 <= k <= |tags| && Spells(tags[..k], items[0]) && SpellsAll(tags[k..], items[1..])
  }

  lemma {:induction false} SpelledIsScanned(tags: seq<Tag>, items: seq<Item>, rest: seq<Tag>, depth: nat)
    requires SpellsAll(tags, items)
    ensures Scan(tags + rest, depth) == Continued(Listing(items, depth), Scan(rest, depth))
    decreases items
  {
    if items == [] {
      assert tags + rest == rest;
      assert Scan(rest, depth).Some? ==> [] + Scan(rest, depth).value == Scan(rest, depth).value;
    } else {
      var k :| 0 <= k <= |tags| && Spells(tags[..k], items[0]) && SpellsAll(tags[k..], items[1..]);
      assert tags + rest == tags[..k] + (tags[k..] + rest);
      SpelledIsScanned(tags[k..], items[1..], rest, depth);
      ItemIsScanned(tags[..k], items[0], tags[k..] + rest, depth);
      ContinuedTwice(ItemListing(items[0], depth), Listing(items[1..], depth), Scan(rest, depth));
    }
  }

  lemma ContinuedTwice(a: seq<string>, b: seq<string>, rest: Option<seq<string>>)
    ensures Continued(a, Continued(b, rest)) == Continued(a + b, rest)
  {
    if rest.Some? {
      assert a + (b + rest.value) == a + b + rest.value;
    }
  }

  lemma {:induction false} ItemIsScanned(tags: seq<Tag>, item: Item, rest: seq<Tag>, depth: nat)
    requires Spells(tags, item)
    ensures Scan(tags + rest, depth) == Continued(ItemListing(item, depth), Scan(rest, depth))
    decreases item
  {
    var all := tags + rest;
    if item.Folder? && tags != [LeafFolder(item.name)] {
      var inner := tags[1..|tags| - 1];
      assert all[1..] == inner + ([CloseFolder] + rest);
      SpelledIsScanned(inner, item.children, [CloseFolder] + rest, depth + 1);
      assert ([CloseFolder] + rest)[1..] == rest;
      ContinuedTwice([Blanks(depth) + item.name + "/"], Listing(item.children, depth + 1), Scan(rest, depth));
    } else {
      assert all[1..] == rest;
      assert item.Folder? ==> ItemListing(item, depth) == [Blanks(depth) + item.name + "/"];
    }
  }

  /** The spelling of a forest ends at the n-th tag, where the folder around it closes, if there is one. */
  ghost predicate Ends(tags: seq<Tag>, depth: nat, n: nat) {
    if depth == 0 then n == |tags|
    else n < |tags| && tags[n] == CloseFolder && Scan(tags[n + 1..], depth - 1).Some?
  }

  lemma EndsLater(tags: seq<Tag>, depth: nat, m: nat, n: nat)
    requires m <= |tags| && Ends(tags[m..], depth, n)
    ensures Ends(tags, depth, m + n)
  {
    if depth > 0 {
      assert tags[m..][n + 1..] == tags[m + n + 1..];
    }
  }

  /** What scans is a forest, then the tag that closes the folder around it. */
  lemma {:induction false} ScannedIsSpelled(tags: seq<Tag>, depth: nat) returns (items: seq<Item>, n: nat)
    requires Scan(tags, depth).Some?
    ensures n <= |tags| && SpellsAll(tags[..n], items) && Ends(tags, depth, n)
    decreases |tags|
  {
    hide Scan, SpellsAll, Spells, Ends;
    if tags == [] || tags[0].CloseFolder? {
      items, n := [], 0;
      EndsAtOnce(tags, depth);
    } else if tags[0].OpenFolder? {
      ScanRest(tags, depth);
      var children, m := ScannedIsSpelled(tags[1..], depth + 1);
      EndsInside(tags, depth, m);
      var others, k := ScannedIsSpelled(tags[m + 2..], depth);
      items, n := [Folder(tags[0].name, children)] + others, m + 2 + k;
      FolderThenOthers(tags, m, k, children, others);
      EndsLater(tags, depth, m + 2, k);
    } else {
      ScanRest(tags, depth);
      LeafSpelled(tags[0]);
      var item := if tags[0].FileTag? then File(tags[0].name) else Folder(tags[0].name, []);
      var others, k := ScannedIsSpelled(tags[1..], depth);
      items, n := [item] + others, 1 + k;
      ItemThenOthers(tags, k, item, others);
      EndsLater(tags, depth, 1, k);
    }
  }

  lemma EndsAtOnce(tags: seq<Tag>, depth: nat)
    requires Scan(tags, depth).Some? && (tags == [] || tags[0].CloseFolder?)
    ensures SpellsAll(tags[..0], []) && Ends(tags, depth, 0)
  {
  }

  lemma ScanRest(tags: seq<Tag>, depth: nat)
    requires tags != [] && Scan(tags, depth).Some? && !tags[0].CloseFolder?
    ensures !tags[0].Unknown?
    ensures Scan(tags[1..], if tags[0].OpenFolder? then depth + 1 else depth).Some?
  {
  }

  /** Inside an open folder the forest stops at the tag that closes it. */
  lemma EndsInside(tags: seq<Tag>, depth: nat, m: nat)
    requires tags != [] && Ends(tags[1..], depth + 1, m)
    ensures m + 2 <= |tags| && tags[m + 1] == CloseFolder && Scan(tags[m + 2..], depth).Some?
  {
    assert tags[1..][m + 1..] == tags[m + 2..];
  }

  lemma LeafSpelled(tag: Tag)
    requires tag.FileTag? || tag.LeafFolder?
    ensures Spells([tag], if tag.FileTag? then File(tag.name) else Folder(tag.name, []))
  {
  }

  lemma FolderThenOthers(tags: seq<Tag>, m: nat, k: nat, children: seq<Item>, others: seq<Item>)
    requires m + 2 + k <= |tags| && tags[0].OpenFolder? && tags[m + 1] == CloseFolder
    requires SpellsAll(tags[1..][..m], children) && SpellsAll(tags[m + 2..][..k], others)
    ensures SpellsAll(tags[..m + 2 + k], [Folder(tags[0].name, children)] + others)
  {
    hide SpellsAll;
    assert tags[..m + 2] == [OpenFolder(tags[0].name)] + tags[1..][..m] + [CloseFolder];
    FolderSpelled(tags[..m + 2], tags[0].name, children, tags[1..][..m]);
    assert tags[..m + 2 + k] == tags[..m + 2] + tags[m + 2..][..k];
    hide Spells;
    JoinSpelling(tags[..m + 2 + k], tags[..m + 2], [Folder(tags[0].name, children)] + others, tags[m + 2..][..k]);
  }

  lemma ItemThenOthers(tags: seq<Tag>, k: nat, item: Item, others: seq<Item>)
    requires 1 + k <= |tags| && Spells([tags[0]], item) && SpellsAll(tags[1..][..k], others)
    ensures SpellsAll(tags[..1 + k], [item] + others)
  {
    hide Spells, SpellsAll;
    assert tags[..1 + k] == [tags[0]] + tags[1..][..k];
    JoinSpelling(tags[..1 + k], [tags[0]], [item] + others, tags[1..][..k]);
  }

  lemma FolderSpelled(tags: seq<Tag>, name: string, children: seq<Item>, inner: seq<Tag>)
    requires |tags| == |inner| + 2 && tags == [OpenFolder(name)] + inner + [CloseFolder]
    requires SpellsAll(inner, children)
    ensures Spells(tags, Folder(name, children))
  {
    assert tags[1..|tags| - 1] == inner;
  }

  lemma JoinSpelling(tags: seq<Tag>, first: seq<Tag>, items: seq<Item>, others: seq<Tag>)
    requires tags == first + others && items != []
    requires Spells(first, items[0]) && SpellsAll(others, items[1..])
    ensures SpellsAll(tags, items)
  {
    assert tags[..|first|] == first && tags[|first|..] == others;
  }

  ghost predicate WellNested(tags: seq<Tag>, items: seq<Item>) {
    items != [] && SpellsAll(tags, items)
  }

  lemma SpellingParses(tags: seq<Tag>, items: seq<Item>)
    requires SpellsAll(tags, items)
    ensures Scan(tags, 0) == Some(Listing(items, 0))
  {
    SpelledIsScanned(tags, items, [], 0);
    assert tags + [] == tags && Listing(items, 0) + [] == Listing(items, 0);
  }

  /** Accepted are exactly the spellings of non-empty forests, and the text is their listing. */
  lemma AcceptsWellNested(tags: seq<Tag>)
    ensures Parsed(tags).Some? <==> exists items :: WellNested(tags, items)
    ensures forall items :: WellNested(tags, items) ==> Parsed(tags) == Some(Join(Listing(items, 0)))
  {
    forall items | WellNested(tags, items)
      ensures Parsed(tags) == Some(Join(Listing(items, 0)))
    {
      SpellingParses(tags, items);
      assert ItemListing(items[0], 0) != [];
    }
    if Parsed(tags).Some? {
      var items, n := ScannedIsSpelled(tags, 0);
      assert tags[..n] == tags;
      SpellingParses(tags, items);
      assert WellNested(tags, items);
    }
  }
}
