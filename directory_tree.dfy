/** `get_directory_structure` of `src/utils/tree.py`: an ASCII drawing of a
    directory tree, with ignore patterns, directories listed before files,
    a depth cut-off, and one line per entry. The file system is the
    abstract tree of `FileTree`. */
module DirectoryTree {
  import opened Common
  import opened Text
  import opened FileTree

  /** The patterns used when the caller gives none. */
  const DefaultIgnorePatterns: seq<string> := [".git", "__pycache__", ".pytest_cache", ".venv", "venv"]

  /** `ignore_patterns`, with the default for `None`. */
  function IgnorePatterns(given: Option<seq<string>>): (r: seq<string>)
    ensures given.Some? ==> r == given.value
    ensures given.None? ==> r == DefaultIgnorePatterns
  {
    if given.Some? then given.value else DefaultIgnorePatterns
  }

  /** `should_ignore`: some pattern occurs anywhere in the path string, so a
      pattern matching an ancestor's name hides the whole subtree. */
  predicate Ignored(path: string, patterns: seq<string>) {
    exists i :: 0 <= i < |patterns| && Contains(path, patterns[i])
  }

  /** `str(root / name)`: the path of a directory item; `.` is dropped. */
  function ItemPath(parent: string, name: string): string {
    if parent == "." then name else JoinPath(parent, name)
  }

  /** The children that no pattern hides, in listing order. */
  function Visible(children: seq<Entry>, path: string, patterns: seq<string>): (r: seq<Entry>)
    ensures forall x :: x in r <==> x in children && !Ignored(ItemPath(path, x.name), patterns)
    ensures multiset(r) <= multiset(children)
  {
    if children == [] then []
    else
      var rest := Visible(children[1..], path, patterns);
      assert children == [children[0]] + children[1..];
      if Ignored(ItemPath(path, children[0].name), patterns) then rest else [children[0]] + rest
  }

  /** The sort key `(x.is_file(), x.name.lower())` compared with `<=`:
      directories first, then by lower-cased name. */
  predicate KeyLe(x: Entry, y: Entry) {
    (x.Dir? && y.File?) || (x.Dir? == y.Dir? && !Below(Lower(y.name), Lower(x.name)))
  }

  lemma KeyTotal(x: Entry, y: Entry)
    ensures KeyLe(x, y) || KeyLe(y, x)
  {
    if x.Dir? == y.Dir? && Lower(x.name) != Lower(y.name) {
      BelowTotal(Lower(x.name), Lower(y.name));
      if Below(Lower(x.name), Lower(y.name)) {
        BelowAsymmetric(Lower(x.name), Lower(y.name));
      } else {
        BelowAsymmetric(Lower(y.name), Lower(x.name));
      }
    } else if x.Dir? == y.Dir? {
      BelowIrreflexive(Lower(x.name));
    }
  }

  lemma KeyTransitive(x: Entry, y: Entry, z: Entry)
    requires KeyLe(x, y) && KeyLe(y, z)
    ensures KeyLe(x, z)
  {
    if x.Dir? == z.Dir? {
      var a, b, c := Lower(x.name), Lower(y.name), Lower(z.name);
      assert y.Dir? == x.Dir?;
      if Below(c, a) {
        if b == c {
        } else {
          BelowTotal(b, c);
          BelowTransitive(b, c, a);
        }
      }
    }
  }

  predicate SortedItems(s: seq<Entry>) {
    forall i, j :: 0 <= i < j < |s| ==> KeyLe(s[i], s[j])
  }

  /** Inserts `x` before the first element it does not sort after. */
  function InsertItem(x: Entry, s: seq<Entry>): (r: seq<Entry>)
    ensures multiset(r) == multiset(s) + multiset{x}
  {
    if s == [] then [x]
    else if KeyLe(x, s[0]) then [x] + s
    else
      assert s == [s[0]] + s[1..];
      [s[0]] + InsertItem(x, s[1..])
  }

  /** Inserting into a sorted list keeps it sorted. */
  lemma {:induction false} InsertItemSorted(x: Entry, s: seq<Entry>)
    requires SortedItems(s)
    ensures SortedItems(InsertItem(x, s))
  {
    if s == [] {
    } else if KeyLe(x, s[0]) {
      forall j | 0 <= j < |s| ensures KeyLe(x, s[j]) {
        if j > 0 { KeyTransitive(x, s[0], s[j]); }
      }
    } else {
      KeyTotal(x, s[0]);
      var t := InsertItem(x, s[1..]);
      InsertItemSorted(x, s[1..]);
      LeadsAll(s[0], t, x, s[1..]);
    }
  }

  /** If `y` sorts before `x` and before every element of `s`, it sorts
      before every element of `t`, which holds `x` and the elements of `s`;
      then `[y] + t` is sorted when `t` is. */
  lemma LeadsAll(y: Entry, t: seq<Entry>, x: Entry, s: seq<Entry>)
    requires KeyLe(y, x) && forall j :: 0 <= j < |s| ==> KeyLe(y, s[j])
    requires multiset(t) == multiset(s) + multiset{x} && SortedItems(t)
    ensures SortedItems([y] + t)
  {
    forall j | 0 <= j < |t| ensures KeyLe(y, t[j]) {
      assert t[j] in multiset(t);
      if t[j] != x {
        assert t[j] in multiset(s);
      }
    }
  }

  /** `sorted(items, key=...)`: a permutation of the items in key order. */
  function SortItems(s: seq<Entry>): (r: seq<Entry>)
    ensures SortedItems(r)
    ensures multiset(r) == multiset(s)
  {
    if s == [] then []
    else
      assert s == [s[0]] + s[1..];
      var t := SortItems(s[1..]);
      InsertItemSorted(s[0], t);
      InsertItem(s[0], t)
  }

  /** Every element of `items` is a child of `e`. */
  predicate AmongChildren(items: seq<Entry>, e: Entry)
    requires e.Dir?
  {
    forall x :: x in items ==> x in e.children
  }

  /** The items a readable directory lists: its visible children, sorted. */
  function Items(e: Entry, path: string, patterns: seq<string>): (r: seq<Entry>)
    requires e.Dir?
    ensures AmongChildren(r, e)
  {
    var v := Visible(e.children, path, patterns);
    var r := SortItems(v);
    assert forall x :: x in r ==> x in multiset(v);
    r
  }

  /** The listed items are in key order and are exactly the children no
      pattern hides. */
  lemma ItemsAreSortedVisibleChildren(e: Entry, path: string, patterns: seq<string>)
    requires e.Dir?
    ensures SortedItems(Items(e, path, patterns))
    ensures forall x :: x in Items(e, path, patterns) <==> x in e.children && !Ignored(ItemPath(path, x.name), patterns)
  {
    var v := Visible(e.children, path, patterns);
    assert forall x :: x in Items(e, path, patterns) <==> x in multiset(v);
  }

  function Connector(isLast: bool): string {
    if isLast then "└── " else "├── "
  }

  /** The prefix of the next level: spaces under a last entry, a bar otherwise.
      Only the bar adds a level to the depth. */
  function ChildPrefix(prefix: string, isLast: bool): (r: string)
    ensures |r| == |prefix| + 4 && prefix <= r
    ensures r[|prefix|] == (if isLast then ' ' else '│')
    ensures forall i :: |prefix| < i < |r| ==> r[i] == ' '
    ensures Depth(r) == Depth(prefix) + (if isLast then 0 else 1)
  {
    var tail := if isLast then "    " else "│   ";
    CountAppend(prefix, tail, '│');
    assert Count(tail, '│') == (if isLast then 0 else 1) by {
      assert tail[..3][..2] == tail[..2] && tail[..2][..1] == tail[..1] && tail[..1][..0] == [];
      assert Count(tail[..1], '│') == (if isLast then 0 else 1);
      assert Count(tail[..2], '│') == Count(tail[..1], '│');
      assert Count(tail[..3], '│') == Count(tail[..2], '│');
      assert tail[..4] == tail;
    }
    prefix + tail
  }

  /** `len(prefix.split("│")) - 1`. */
  function Depth(prefix: string): nat {
    Count(prefix, '│')
  }

  const DeniedNote := " (Permission denied)"

  function ErrorNote(message: string): string {
    " (Error: " + message + ")"
  }

  /** `get_directory_structure(path, max_depth, ignore_patterns, prefix,
      is_last)` for the directory `e` found at `path`. */
  function Render(e: Entry, path: string, maxDepth: Option<int>, patterns: seq<string>, prefix: string, isLast: bool): (r: string)
    requires e.Dir?
    decreases e, 2
  {
    match e.access
    case PermissionDenied => prefix + Connector(isLast) + e.name + "/" + DeniedNote + "\n"
    case Failing(m) => prefix + Connector(isLast) + e.name + "/" + ErrorNote(m) + "\n"
    case Readable =>
      if maxDepth.Some? && Depth(prefix) >= maxDepth.value then prefix + Connector(isLast) + e.name + "/\n"
      else
        var items := Items(e, path, patterns);
        var body := RenderItems(e, items, |items|, path, maxDepth, patterns, prefix, isLast);
        if prefix != "" then prefix + Connector(isLast) + e.name + "/\n" + body else e.name + "/" + body
  }

  /** The renderings of the first `k` items, concatenated. */
  function RenderItems(e: Entry, items: seq<Entry>, k: nat, path: string, maxDepth: Option<int>, patterns: seq<string>, prefix: string, isLast: bool): string
    requires e.Dir? && k <= |items| && AmongChildren(items, e)
    decreases e, 1, k
  {
    if k == 0 then ""
    else RenderItems(e, items, k - 1, path, maxDepth, patterns, prefix, isLast) + RenderItem(e, items, k - 1, path, maxDepth, patterns, prefix, isLast)
  }

  /** One item: a subdirectory is drawn by the recursive call under the
      next prefix; a file is one line under the current prefix. */
  function RenderItem(e: Entry, items: seq<Entry>, j: nat, path: string, maxDepth: Option<int>, patterns: seq<string>, prefix: string, isLast: bool): string
    requires e.Dir? && j < |items| && AmongChildren(items, e)
    decreases e, 0
  {
    var item := items[j];
    assert item in e.children;
    if item.Dir? then
      Render(item, ItemPath(path, item.name), maxDepth, patterns, ChildPrefix(prefix, isLast), j == |items| - 1)
    else prefix + Connector(j == |items| - 1) + item.name + "\n"
  }

  /** A directory drawn under a non-empty prefix starts with its own line:
      the prefix, its connector and its name. */
  lemma DirectoryHead(e: Entry, path: string, maxDepth: Option<int>, patterns: seq<string>, prefix: string, isLast: bool)
    requires e.Dir? && prefix != ""
    ensures prefix + Connector(isLast) + e.name + "/" <= Render(e, path, maxDepth, patterns, prefix, isLast)
  {
  }

  /** Item `j` is drawn after `└── ` when it is the last item and after
      `├── ` otherwise; a file is one line under the directory's prefix,
      a subdirectory starts under the next level's prefix. */
  lemma ItemConnector(e: Entry, items: seq<Entry>, j: nat, path: string, maxDepth: Option<int>, patterns: seq<string>, prefix: string, isLast: bool)
    requires e.Dir? && j < |items| && AmongChildren(items, e)
    ensures var head := (if items[j].Dir? then ChildPrefix(prefix, isLast) else prefix)
      + (if j == |items| - 1 then "└── " else "├── ") + items[j].name;
      head <= RenderItem(e, items, j, path, maxDepth, patterns, prefix, isLast)
    ensures !items[j].Dir? ==>
      RenderItem(e, items, j, path, maxDepth, patterns, prefix, isLast)
      == prefix + (if j == |items| - 1 then "└── " else "├── ") + items[j].name + "\n"
  {
    var item := items[j];
    assert item in e.children;
    if item.Dir? {
      DirectoryHead(item, ItemPath(path, item.name), maxDepth, patterns, ChildPrefix(prefix, isLast), j == |items| - 1);
    }
  }

  /** No line break in `s`. */
  predicate NoNewline(s: string) {
    forall i :: 0 <= i < |s| ==> s[i] != '\n'
  }

  /** `s` is one line: it ends with the only line break it holds. */
  predicate OneLine(s: string) {
    |s| > 0 && s[|s| - 1] == '\n' && NoNewline(s[..|s| - 1])
  }

  /** An unreadable directory, and a readable one at or past the maximum
      depth, is drawn as its own line alone, starting with its connector
      and name; none of its items is drawn. */
  lemma DirectoryAloneIsOneLine(e: Entry, path: string, maxDepth: Option<int>, patterns: seq<string>, prefix: string, isLast: bool)
    requires e.Dir? && NoNewline(prefix) && NoNewline(e.name)
    requires e.access.Failing? ==> NoNewline(e.access.reason)
    requires !e.access.Readable? || (maxDepth.Some? && Depth(prefix) >= maxDepth.value)
    ensures OneLine(Render(e, path, maxDepth, patterns, prefix, isLast))
    ensures prefix + Connector(isLast) + e.name + "/" <= Render(e, path, maxDepth, patterns, prefix, isLast)
  {
    HeadIsOnOneLine(prefix, isLast, e.name);
    AloneLine(e, path, maxDepth, patterns, prefix, isLast);
    EndsLine(prefix + Connector(isLast) + e.name + "/" + AloneNote(e.access));
  }

  /** What follows the name on the line of a directory drawn alone. */
  function AloneNote(access: Access): (r: string)
    ensures access.Failing? && NoNewline(access.reason) ==> NoNewline(r)
    ensures !access.Failing? ==> NoNewline(r)
  {
    match access
    case PermissionDenied => DeniedNote
    case Failing(m) =>
      assert NoNewline(" (Error: ") && NoNewline(")");
      ErrorNote(m)
    case Readable => ""
  }

  lemma AloneLine(e: Entry, path: string, maxDepth: Option<int>, patterns: seq<string>, prefix: string, isLast: bool)
    requires e.Dir?
    requires !e.access.Readable? || (maxDepth.Some? && Depth(prefix) >= maxDepth.value)
    ensures Render(e, path, maxDepth, patterns, prefix, isLast) == prefix + Connector(isLast) + e.name + "/" + AloneNote(e.access) + "\n"
  {
    if e.access.Readable? {
      assert AloneNote(e.access) == "";
    }
  }

  lemma HeadIsOnOneLine(prefix: string, isLast: bool, name: string)
    requires NoNewline(prefix) && NoNewline(name)
    ensures NoNewline(prefix + Connector(isLast) + name + "/")
  {
    assert NoNewline(Connector(isLast));
  }

  /** A text without a line break, ended by one, is one line. */
  lemma EndsLine(line: string)
    requires NoNewline(line)
    ensures OneLine(line + "\n")
  {
    assert (line + "\n")[..|line|] == line;
  }

  /** A prefix of spaces holds no bar, so its depth is zero. */
  lemma {:induction false} SpacesHaveNoDepth(prefix: string)
    requires forall i :: 0 <= i < |prefix| ==> prefix[i] == ' '
    ensures Depth(prefix) == 0
    decreases |prefix|
  {
    if prefix != [] {
      SpacesHaveNoDepth(prefix[..|prefix| - 1]);
    }
  }

  /** Depth counts bars only, and a last directory extends the prefix with
      spaces: along a chain of last directories from the root the prefix
      stays all spaces, so a positive maximum depth never cuts there. */
  lemma LastChildChainIsNeverCut(e: Entry, path: string, d: int, patterns: seq<string>, prefix: string)
    requires e.Dir? && e.access.Readable? && d >= 1
    requires prefix != [] && forall i :: 0 <= i < |prefix| ==> prefix[i] == ' '
    ensures var items := Items(e, path, patterns);
      && Render(e, path, Some(d), patterns, prefix, true)
         == prefix + Connector(true) + e.name + "/\n" + RenderItems(e, items, |items|, path, Some(d), patterns, prefix, true)
      && forall i :: 0 <= i < |ChildPrefix(prefix, true)| ==> ChildPrefix(prefix, true)[i] == ' '
  {
    SpacesHaveNoDepth(prefix);
    LastChildPrefixIsSpaces(prefix);
  }

  lemma LastChildPrefixIsSpaces(prefix: string)
    requires forall i :: 0 <= i < |prefix| ==> prefix[i] == ' '
    ensures forall i :: 0 <= i < |ChildPrefix(prefix, true)| ==> ChildPrefix(prefix, true)[i] == ' '
  {
    assert ChildPrefix(prefix, true) == prefix + "    ";
  }

  /** The root's own line runs into its first item: the root rendering
      has no line break after `name/`. */
  lemma RootLineRunsIntoFirstItem(name: string, path: string, patterns: seq<string>, f: string)
    requires !Ignored(ItemPath(path, f), patterns)
    ensures Render(Dir(name, Readable, [File(f)]), path, None, patterns, "", true) == name + "/└── " + f + "\n"
  {
    var e := Dir(name, Readable, [File(f)]);
    var items := Items(e, path, patterns);
    ItemsAreSortedVisibleChildren(e, path, patterns);
    assert File(f) in items;
    assert items == [File(f)] by {
      assert forall x :: x in items ==> x == File(f);
      assert multiset(items) == multiset(Visible(e.children, path, patterns));
      assert |Visible(e.children, path, patterns)| <= 1;
      assert |items| == |multiset(items)|;
    }
    assert RenderItems(e, items, 1, path, None, patterns, "", true) == "" + RenderItem(e, items, 0, path, None, patterns, "", true);
  }

  /** The root rendering with a line break after `name/`. Nested calls
      and the collapsed and error lines are as in `Render`. */
  function RenderCorrected(e: Entry, path: string, maxDepth: Option<int>, patterns: seq<string>, prefix: string, isLast: bool): (r: string)
    requires e.Dir?
  {
    if prefix == "" && e.access.Readable? && !(maxDepth.Some? && Depth(prefix) >= maxDepth.value) then
      var items := Items(e, path, patterns);
      e.name + "/\n" + RenderItems(e, items, |items|, path, maxDepth, patterns, prefix, isLast)
    else Render(e, path, maxDepth, patterns, prefix, isLast)
  }

  /** With the line break, the first line of a root rendering is exactly
      the root's name and a slash. */
  lemma RootLineStandsAlone(e: Entry, path: string, maxDepth: Option<int>, patterns: seq<string>, isLast: bool)
    requires e.Dir? && e.access.Readable? && !(maxDepth.Some? && 0 >= maxDepth.value)
    requires forall i :: 0 <= i < |e.name| ==> e.name[i] != '\n'
    ensures BeforeFirst(RenderCorrected(e, path, maxDepth, patterns, "", isLast), "\n") == e.name + "/"
  {
    assert Depth("") == 0;
    var r := RenderCorrected(e, path, maxDepth, patterns, "", isLast);
    var head := e.name + "/";
    var first := BeforeFirst(r, "\n");
    assert r[..|head| + 1] == head + "\n";
    assert OccursAt(r, "\n", |head|);
    forall i: nat | i < |head| ensures !OccursAt(r, "\n", i) {
      assert r[i] == head[i];
    }
    assert |first| == |head|;
    assert first == r[..|head|];
  }

  /** The recursive procedure: items are listed, sorted and drawn one by
      one into `structure`, whose first element is the root's own line. */
  method GetDirectoryStructure(e: Entry, path: string, maxDepth: Option<int>, patterns: seq<string>, prefix: string, isLast: bool) returns (s: string)
    requires e.Dir?
    ensures s == Render(e, path, maxDepth, patterns, prefix, isLast)
    decreases e, 2
  {
    var structure := [e.name + "/"];
    if e.access.PermissionDenied? {
      return prefix + Connector(isLast) + e.name + "/" + DeniedNote + "\n";
    }
    if e.access.Failing? {
      return prefix + Connector(isLast) + e.name + "/" + ErrorNote(e.access.reason) + "\n";
    }
    var items := Items(e, path, patterns);
    var currentDepth := Count(prefix, '│');
    if maxDepth.Some? && currentDepth >= maxDepth.value {
      assert Render(e, path, maxDepth, patterns, prefix, isLast) == prefix + Connector(isLast) + e.name + "/\n";
      return prefix + Connector(isLast) + e.name + "/\n";
    }
    var parts := DrawItems(e, items, path, maxDepth, patterns, prefix, isLast);
    ghost var body := Concat(parts);
    structure := structure + parts;
    assert structure[1..] == parts;
    if prefix != "" {
      s := prefix + Connector(isLast) + e.name + "/\n" + Concat(structure[1..]);
      assert s == Render(e, path, maxDepth, patterns, prefix, isLast);
    } else {
      assert structure == [structure[0]] + structure[1..];
      ConcatCons(structure[0], structure[1..]);
      s := Concat(structure);
      assert s == e.name + "/" + body;
      assert s == Render(e, path, maxDepth, patterns, prefix, isLast);
    }
  }

  /** The loop over the sorted items, collecting what each one draws. */
  method DrawItems(e: Entry, items: seq<Entry>, path: string, maxDepth: Option<int>, patterns: seq<string>, prefix: string, isLast: bool) returns (parts: seq<string>)
    requires e.Dir? && AmongChildren(items, e)
    ensures Concat(parts) == RenderItems(e, items, |items|, path, maxDepth, patterns, prefix, isLast)
    decreases e, 1
  {
    parts := [];
    for i := 0 to |items|
      invariant Concat(parts) == RenderItems(e, items, i, path, maxDepth, patterns, prefix, isLast)
    {
      var part := DrawItem(e, items, i, path, maxDepth, patterns, prefix, isLast);
      ConcatSnoc(parts, part);
      parts := parts + [part];
    }
  }

  /** One pass of the loop over the items: a subdirectory is drawn by the
      recursive call, a file as one line. */
  method DrawItem(e: Entry, items: seq<Entry>, i: nat, path: string, maxDepth: Option<int>, patterns: seq<string>, prefix: string, isLast: bool) returns (part: string)
    requires e.Dir? && i < |items| && AmongChildren(items, e)
    ensures part == RenderItem(e, items, i, path, maxDepth, patterns, prefix, isLast)
    decreases e, 0
  {
    var isLastItem := i == |items| - 1;
    var newPrefix := if isLast then prefix + "    " else prefix + "│   ";
    var item := items[i];
    assert item in e.children;
    if item.Dir? {
      part := GetDirectoryStructure(item, ItemPath(path, item.name), maxDepth, patterns, newPrefix, isLastItem);
    } else {
      part := prefix + Connector(isLastItem) + item.name + "\n";
    }
  }
}
