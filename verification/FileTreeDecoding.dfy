/** Reading the indented listing back: it works exactly for trees whose names are clean. */
module FileTreeDecoding {
  import opened Common
  import opened FileTree

  // ---------------------------------------------------------------------------
  // Clean names

  predicate Indented(s: string) {
    |s| >= 2 && s[0] == ' ' && s[1] == ' '
  }

  predicate EndsWithSlash(s: string) {
    s != [] && s[|s| - 1] == '/'
  }

  /** No name starts with two blanks, and no file name ends with a slash. */
  predicate Clean(item: Item)
    decreases item
  {
    match item
    case File(name) => !Indented(name) && !EndsWithSlash(name)
    case Folder(name, children) => !Indented(name) && AllClean(children)
  }

  predicate AllClean(items: seq<Item>)
    decreases items
  {
    items == [] || (Clean(items[0]) && AllClean(items[1..]))
  }

  // ---------------------------------------------------------------------------
  // Lines

  /** The depth a line is indented to, two blanks a level. */
  function Depth(line: string): (d: nat)
    ensures 2 * d <= |line|
  {
    if Indented(line) then 1 + Depth(line[2..]) else 0
  }

  function Unindented(line: string): (r: string)
    ensures !Indented(r)
  {
    if Indented(line) then Unindented(line[2..]) else line
  }

  lemma {:induction false} BlanksConcat(depth: nat)
    requires depth > 0
    ensures Blanks(depth) == "  " + Blanks(depth - 1)
  {
    if depth > 1 {
      BlanksConcat(depth - 1);
    }
  }

  lemma {:induction false} IndentReadsBack(depth: nat, text: string)
    requires !Indented(text)
    ensures Depth(Blanks(depth) + text) == depth && Unindented(Blanks(depth) + text) == text
  {
    var line := Blanks(depth) + text;
    if depth == 0 {
      assert line == text;
    } else {
      BlanksConcat(depth);
      assert line == "  " + (Blanks(depth - 1) + text);
      assert line[2..] == Blanks(depth - 1) + text;
      IndentReadsBack(depth - 1, text);
    }
  }

  /** A line is its indentation and the rest. */
  lemma {:induction false} LineSplits(line: string)
    ensures line == Blanks(Depth(line)) + Unindented(line)
  {
    if Indented(line) {
      LineSplits(line[2..]);
      BlanksConcat(Depth(line));
      assert line == "  " + line[2..];
    } else {
      assert Blanks(0) + line == line;
    }
  }

  // ---------------------------------------------------------------------------
  // The decoder

  /** The items at a depth, up to the first line further out. */
  function DecodeAt(lines: seq<string>, depth: nat): (r: Option<(seq<Item>, seq<string>)>)
    ensures r.Some? ==> |r.value.1| <= |lines|
    decreases |lines|
  {
    if lines == [] || Depth(lines[0]) < depth then Some(([], lines))
    else if Depth(lines[0]) > depth then None
    else
      var text := Unindented(lines[0]);
      if !EndsWithSlash(text) then
        match DecodeAt(lines[1..], depth)
        case None => None
        case Some((others, rest)) => Some(([File(text)] + others, rest))
      else
        match DecodeAt(lines[1..], depth + 1)
        case None => None
        case Some((children, after)) =>
          match DecodeAt(after, depth)
          case None => None
          case Some((others, rest)) => Some(([Folder(text[..|text| - 1], children)] + others, rest))
  }

  function DecodeLines(lines: seq<string>): Option<seq<Item>> {
    match DecodeAt(lines, 0)
    case Some((items, rest)) => if rest == [] then Some(items) else None
    case None => None
  }

  /** What may follow the listing of a forest: nothing at its depth or below. */
  predicate Outside(rest: seq<string>, depth: nat) {
    rest == [] || Depth(rest[0]) < depth
  }

  lemma {:induction false} ListingDecodes(items: seq<Item>, rest: seq<string>, depth: nat)
    requires AllClean(items) && Outside(rest, depth)
    ensures DecodeAt(Listing(items, depth) + rest, depth) == Some((items, rest))
    decreases items
  {
    hide DecodeAt, Depth, ItemListing, Indented;
    if items == [] {
      assert Listing(items, depth) + rest == rest;
      NothingDecodes(rest, depth);
    } else {
      var others := Listing(items[1..], depth) + rest;
      ListingDecodes(items[1..], rest, depth);
      assert Listing(items, depth) + rest == ItemListing(items[0], depth) + others;
      assert items == [items[0]] + items[1..];
      if items[0].File? {
        FileDecodes(items[0].name, others, depth);
      } else {
        OthersOutside(items[1..], rest, depth);
        ListingDecodes(items[0].children, others, depth + 1);
        FolderDecodes(items[0].name, items[0].children, others, depth);
      }
    }
  }

  lemma NothingDecodes(rest: seq<string>, depth: nat)
    requires Outside(rest, depth)
    ensures DecodeAt(rest, depth) == Some(([], rest))
  {
  }

  /** The next sibling is printed further out than the children before it. */
  lemma OthersOutside(items: seq<Item>, rest: seq<string>, depth: nat)
    requires AllClean(items) && Outside(rest, depth)
    ensures Outside(Listing(items, depth) + rest, depth + 1)
  {
    if items != [] {
      var item := items[0];
      var text := if item.File? then item.name else item.name + "/";
      SlashKeepsClean(item.name);
      IndentReadsBack(depth, text);
      assert Blanks(depth) + item.name + "/" == Blanks(depth) + (item.name + "/");
      assert (Listing(items, depth) + rest)[0] == ItemListing(item, depth)[0];
    } else {
      assert Listing(items, depth) + rest == rest;
    }
  }

  lemma SlashKeepsClean(name: string)
    requires !Indented(name)
    ensures !Indented(name + "/") && EndsWithSlash(name + "/") && (name + "/")[..|name|] == name
  {
  }

  lemma FileDecodes(name: string, others: seq<string>, depth: nat)
    requires !Indented(name) && !EndsWithSlash(name) && DecodeAt(others, depth).Some?
    ensures
      var r := DecodeAt(others, depth).value;
      DecodeAt(ItemListing(File(name), depth) + others, depth) == Some(([File(name)] + r.0, r.1))
  {
    IndentReadsBack(depth, name);
    assert ([Blanks(depth) + name] + others)[1..] == others;
  }

  lemma FolderDecodes(name: string, children: seq<Item>, others: seq<string>, depth: nat)
    requires !Indented(name) && DecodeAt(others, depth).Some?
    requires DecodeAt(Listing(children, depth + 1) + others, depth + 1) == Some((children, others))
    ensures
      var r := DecodeAt(others, depth).value;
      DecodeAt(ItemListing(Folder(name, children), depth) + others, depth) == Some(([Folder(name, children)] + r.0, r.1))
  {
    FolderLine(name, children, others, depth);
    hide Listing, ItemListing, Blanks, Indented, EndsWithSlash;
    var all := ItemListing(Folder(name, children), depth) + others;
    assert DecodeAt(all[1..], depth + 1) == Some((children, others));
  }

  lemma FolderLine(name: string, children: seq<Item>, others: seq<string>, depth: nat)
    requires !Indented(name)
    ensures
      var all := ItemListing(Folder(name, children), depth) + others;
      && all != [] && all[1..] == Listing(children, depth + 1) + others
      && Depth(all[0]) == depth && Unindented(all[0]) == name + "/"
      && EndsWithSlash(name + "/") && (name + "/")[..|name + "/"| - 1] == name
  {
    hide Depth, Unindented;
    var line := Blanks(depth) + name + "/";
    assert line == Blanks(depth) + (name + "/");
    SlashKeepsClean(name);
    IndentReadsBack(depth, name + "/");
  }

  /** Whatever decodes is clean. */
  lemma {:induction false} DecodedIsClean(lines: seq<string>, depth: nat)
    requires DecodeAt(lines, depth).Some?
    ensures AllClean(DecodeAt(lines, depth).value.0)
    decreases |lines|
  {
    if lines != [] && Depth(lines[0]) == depth {
      var text := Unindented(lines[0]);
      if EndsWithSlash(text) {
        DecodedIsClean(lines[1..], depth + 1);
        DecodedIsClean(DecodeAt(lines[1..], depth + 1).value.1, depth);
      } else {
        DecodedIsClean(lines[1..], depth);
      }
    }
  }

  /** The listing of a forest decodes back to it exactly when its names are clean. */
  lemma DecodesExactlyClean(items: seq<Item>)
    ensures DecodeLines(Listing(items, 0)) == Some(items) <==> AllClean(items)
  {
    if AllClean(items) {
      ListingDecodes(items, [], 0);
      assert Listing(items, 0) + [] == Listing(items, 0);
    }
    if DecodeLines(Listing(items, 0)) == Some(items) {
      DecodedIsClean(Listing(items, 0), 0);
    }
  }

  /** So two clean forests never share a listing. */
  lemma ListingInjective(items: seq<Item>, others: seq<Item>)
    requires AllClean(items) && AllClean(others) && Listing(items, 0) == Listing(others, 0)
    ensures items == others
  {
    DecodesExactlyClean(items);
    DecodesExactlyClean(others);
  }

  /** Unclean names do collide: a file name ending with a slash, and one starting with two blanks. */
  lemma UncleanCollide()
    ensures Listing([File("a/")], 0) == Listing([Folder("a", [])], 0)
    ensures Listing([Folder("a", []), File("  b")], 0) == Listing([Folder("a", [File("b")])], 0)
  {
    assert Blanks(0) == "" && Blanks(1) == "  ";
    SingleListing(File("a/"), 0);
    SingleListing(Folder("a", []), 0);
    assert Blanks(0) + "a/" == "a/" && Blanks(0) + "a" + "/" == "a/" && Blanks(1) + "b" == "  b" && Blanks(0) + "  b" == "  b";
    assert Listing([File("a/")], 0) == ["a/"];
    assert ItemListing(Folder("a", []), 0) == ["a/"] + Listing([], 1) == ["a/"];
    SingleListing(File("  b"), 0);
    SingleListing(File("b"), 1);
    SingleListing(Folder("a", [File("b")]), 0);
    assert [Folder("a", []), File("  b")][1..] == [File("  b")];
    assert Listing([Folder("a", []), File("  b")], 0) == ["a/", "  b"];
    assert ItemListing(Folder("a", [File("b")]), 0) == ["a/"] + Listing([File("b")], 1);
  }

  lemma SingleListing(item: Item, depth: nat)
    ensures Listing([item], depth) == ItemListing(item, depth)
  {
    assert ItemListing(item, depth) + Listing([], depth) == ItemListing(item, depth);
  }

  // ---------------------------------------------------------------------------
  // Listings of one forest only

  /** The tags never carry an empty name. */
  predicate Named(items: seq<Item>)
    decreases items
  {
    items == [] || (NamedItem(items[0]) && Named(items[1..]))
  }

  predicate NamedItem(item: Item)
    decreases item
  {
    item.name != "" && (item.Folder? ==> Named(item.children))
  }

  /** A line that could name a folder. */
  predicate FolderLike(line: string) {
    |line| >= 2 && EndsWithSlash(line)
  }

  /** No other forest has the listing. */
  ghost predicate OnlyForest(items: seq<Item>) {
    forall others :: Named(others) && Listing(others, 0) == Listing(items, 0) ==> others == items
  }

  lemma FirstLine(item: Item)
    requires NamedItem(item)
    ensures item.Folder? ==> FolderLike(ItemListing(item, 0)[0])
    ensures item.File? ==> ItemListing(item, 0) == [item.name]
    ensures ItemListing(item, 0) != []
  {
    assert Blanks(0) + item.name == item.name && Blanks(0) + item.name + "/" == item.name + "/";
  }

  lemma {:induction false} NoFolderLike(items: seq<Item>)
    requires Named(items) && forall i :: 0 <= i < |Listing(items, 0)| ==> !FolderLike(Listing(items, 0)[i])
    ensures |Listing(items, 0)| == |items|
    ensures forall i :: 0 <= i < |items| ==> items[i] == File(Listing(items, 0)[i])
    decreases |items|
  {
    if items != [] {
      var first, rest := ItemListing(items[0], 0), Listing(items[1..], 0);
      assert Listing(items, 0) == first + rest;
      assert forall i :: 0 <= i < |rest| ==> rest[i] == (first + rest)[|first| + i];
      NoFolderLike(items[1..]);
      FirstLine(items[0]);
      assert Listing(items, 0)[0] == first[0];
    }
  }

  /** The line read as the name of a file, or of a folder without children. */
  predicate Reads(item: Item, line: string) {
    item == File(line) || (FolderLike(line) && item == Folder(line[..|line| - 1], []))
  }

  lemma ReadsLists(item: Item, line: string)
    requires Reads(item, line) && line != ""
    ensures NamedItem(item) && ItemListing(item, 0) == [line]
  {
    assert Blanks(0) + line == line;
    if item.Folder? {
      assert line == line[..|line| - 1] + "/";
      assert Blanks(0) + item.name + "/" == line;
      assert ItemListing(item, 0) == [line] + Listing([], 1);
    }
  }

  /** Lines read one by one, side by side, list themselves. */
  lemma {:induction false} FlatLists(items: seq<Item>, lines: seq<string>)
    requires |items| == |lines| && forall i :: 0 <= i < |lines| ==> lines[i] != "" && Reads(items[i], lines[i])
    ensures Named(items) && Listing(items, 0) == lines
    decreases |items|
  {
    if items != [] {
      FlatLists(items[1..], lines[1..]);
      ReadsLists(items[0], lines[0]);
      hide Reads, NamedItem, ItemListing;
      assert lines == [lines[0]] + lines[1..];
    }
  }

  lemma {:induction false} LinesNotEmpty(items: seq<Item>, depth: nat)
    requires Named(items)
    ensures forall i :: 0 <= i < |Listing(items, depth)| ==> Listing(items, depth)[i] != ""
    decreases items
  {
    if items != [] {
      LinesNotEmpty(items[1..], depth);
      if items[0].Folder? {
        LinesNotEmpty(items[0].children, depth + 1);
      }
      assert forall i :: 0 <= i < |ItemListing(items[0], depth)| ==> ItemListing(items[0], depth)[i] != "";
    }
  }

  /** A line that could name a folder is read in two ways. */
  lemma TwoReadings(lines: seq<string>, k: nat) returns (files: seq<Item>, folder: seq<Item>)
    requires k < |lines| && FolderLike(lines[k]) && forall i :: 0 <= i < |lines| ==> lines[i] != ""
    ensures Named(files) && Named(folder) && Listing(files, 0) == lines && Listing(folder, 0) == lines && files != folder
  {
    hide Listing, Named;
    files := seq(|lines|, i requires 0 <= i < |lines| => File(lines[i]));
    folder := files[k := Folder(lines[k][..|lines[k]| - 1], [])];
    FlatLists(files, lines);
    FlatLists(folder, lines);
    assert files[k] != folder[k];
  }

  lemma SameFiles(items: seq<Item>, others: seq<Item>)
    requires Named(items) && Named(others) && Listing(others, 0) == Listing(items, 0)
    requires forall i :: 0 <= i < |Listing(items, 0)| ==> !FolderLike(Listing(items, 0)[i])
    ensures others == items
  {
    hide Listing, Named, FolderLike;
    NoFolderLike(items);
    NoFolderLike(others);
  }

  /** A forest is the only one with its listing exactly if no line of it could name a folder. */
  lemma OnlyForestExactly(items: seq<Item>)
    requires Named(items)
    ensures OnlyForest(items) <==> forall i :: 0 <= i < |Listing(items, 0)| ==> !FolderLike(Listing(items, 0)[i])
  {
    hide Listing, Named, FolderLike;
    var lines := Listing(items, 0);
    if k: nat :| k < |lines| && FolderLike(lines[k]) {
      LinesNotEmpty(items, 0);
      var files, folder := TwoReadings(lines, k);
      assert FolderLike(Listing(items, 0)[k]);
      assert !(files == items && folder == items);
    } else {
      forall others | Named(others) && Listing(others, 0) == lines
        ensures others == items
      {
        SameFiles(items, others);
      }
    }
  }

  // ---------------------------------------------------------------------------
  // The text

  predicate OneLine(s: string) {
    forall i :: 0 <= i < |s| ==> s[i] != '\n'
  }

  function LineEnd(s: string): (n: nat)
    ensures n <= |s| && OneLine(s[..n]) && (n < |s| ==> s[n] == '\n')
  {
    if s == [] || s[0] == '\n' then 0
    else
      var n := 1 + LineEnd(s[1..]);
      assert s[..n] == [s[0]] + s[1..][..n - 1];
      n
  }

  /** String.split on line feeds. */
  function Split(s: string): seq<string>
    decreases |s|
  {
    var n := LineEnd(s);
    if n == |s| then [s] else [s[..n]] + Split(s[n + 1..])
  }

  lemma {:induction false} LineEndAt(line: string, rest: string)
    requires OneLine(line) && (rest == [] || rest[0] == '\n')
    ensures LineEnd(line + rest) == |line|
  {
    if line == [] {
      assert line + rest == rest;
    } else {
      assert (line + rest)[1..] == line[1..] + rest;
      LineEndAt(line[1..], rest);
    }
  }

  lemma {:induction false} SplitJoins(lines: seq<string>)
    requires lines != [] && forall i :: 0 <= i < |lines| ==> OneLine(lines[i])
    ensures Split(Join(lines)) == lines
  {
    if |lines| == 1 {
      LineEndAt(lines[0], "");
      assert lines[0] + "" == lines[0];
    } else {
      var rest := "\n" + Join(lines[1..]);
      assert Join(lines) == lines[0] + rest;
      LineEndAt(lines[0], rest);
      assert Join(lines)[|lines[0]| + 1..] == Join(lines[1..]) && Join(lines)[..|lines[0]|] == lines[0];
      SplitJoins(lines[1..]);
    }
  }

  /** Names come from single lines. */
  predicate OneLineNames(items: seq<Item>)
    decreases items
  {
    items == [] || (OneLineName(items[0]) && OneLineNames(items[1..]))
  }

  predicate OneLineName(item: Item)
    decreases item
  {
    OneLine(item.name) && (item.Folder? ==> OneLineNames(item.children))
  }

  lemma {:induction false} BlanksOneLine(depth: nat, name: string)
    requires OneLine(name)
    ensures OneLine(Blanks(depth) + name)
  {
    if depth > 0 {
      BlanksOneLine(depth - 1, "  " + name);
      assert Blanks(depth) + name == Blanks(depth - 1) + ("  " + name);
    } else {
      assert Blanks(0) + name == name;
    }
  }

  lemma {:induction false} ListingOneLine(items: seq<Item>, depth: nat)
    requires OneLineNames(items)
    ensures forall i :: 0 <= i < |Listing(items, depth)| ==> OneLine(Listing(items, depth)[i])
    decreases items
  {
    if items != [] {
      var item := items[0];
      ListingOneLine(items[1..], depth);
      BlanksOneLine(depth, if item.File? then item.name else item.name + "/");
      if item.Folder? {
        ListingOneLine(item.children, depth + 1);
        assert Blanks(depth) + item.name + "/" == Blanks(depth) + (item.name + "/");
      }
      assert forall i :: 0 <= i < |ItemListing(item, depth)| ==> OneLine(ItemListing(item, depth)[i]);
    }
  }

  /** The text produced for a component reads back to the tree its tags spell, if the names are clean. */
  lemma TextReadsBack(tags: seq<Tag>, items: seq<Item>)
    requires WellNested(tags, items) && AllClean(items) && OneLineNames(items)
    ensures Parsed(tags).Some? && DecodeLines(Split(Parsed(tags).value)) == Some(items)
  {
    AcceptsWellNested(tags);
    ListingOneLine(items, 0);
    assert ItemListing(items[0], 0) != [];
    SplitJoins(Listing(items, 0));
    DecodesExactlyClean(items);
  }
}
