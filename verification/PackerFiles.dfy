// The packer's list of files (packer.cpp): directories are replaced by what they list, from the start again
// after every one, until only files are left.
module PackerFiles {
  import opened Options

  datatype Node =
    | File(path: string, hidden: bool, readable: bool)
    | Dir(path: string, hidden: bool, entries: seq<Node>)
    | Link(path: string, hidden: bool, to: Option<Node>)   // what it leads to, if anything

  // QFileInfo follows links.
  function Followed(node: Node): (r: Option<Node>)
    ensures r.Some? ==> !r.value.Link?
  {
    match node
    case Link(_, _, None) => None
    case Link(_, _, Some(next)) => Followed(next)
    case _ => Some(node)
  }

  predicate IsDir(node: Node) {
    Followed(node).Some? && Followed(node).value.Dir?
  }

  function EntriesOf(node: Node): seq<Node> {
    if IsDir(node) then Followed(node).value.entries else []
  }

  predicate IsReadable(node: Node) {
    match Followed(node)
    case Some(File(_, _, readable)) => readable
    case _ => false
  }

  // What entryInfoList gives of a directory: no links and nothing hidden.
  function Listed(entries: seq<Node>): seq<Node> {
    if entries == [] then []
    else (if entries[0].Link? || entries[0].hidden then [] else [entries[0]]) + Listed(entries[1..])
  }

  function Size(node: Node): (size: nat)
    ensures size > 0
    decreases node
  {
    match node
    case Dir(_, _, entries) => 1 + SizeOfAll(entries)
    case Link(_, _, Some(next)) => 1 + Size(next)
    case _ => 1
  }

  function SizeOfAll(nodes: seq<Node>): nat
    decreases nodes
  {
    if nodes == [] then 0 else Size(nodes[0]) + SizeOfAll(nodes[1..])
  }

  lemma SizeOfDirectory(node: Node)
    requires IsDir(node)
    ensures SizeOfAll(EntriesOf(node)) < Size(node)
  {
    if node.Link? {
      SizeOfDirectory(node.to.value);
    }
  }

  // ---- What a directory holds ----

  // The files of a node that are to be packed: a hidden file is not, nor is what is hidden in a directory or a
  // link in it, but an argument that is a hidden directory is packed, and a link is what it leads to.
  function FilesOf(node: Node): multiset<Node>
    decreases Size(node), 0
  {
    if IsDir(node) then
      SizeOfDirectory(node);
      FilesOfEntries(EntriesOf(node))
    else if node.hidden then multiset{} else multiset{node}
  }

  function FilesOfEntries(entries: seq<Node>): multiset<Node>
    decreases SizeOfAll(entries), 1
  {
    if entries == [] then multiset{}
    else
      (if entries[0].Link? || entries[0].hidden then multiset{} else FilesOf(entries[0])) + FilesOfEntries(entries[1..])
  }

  function FilesOfAll(nodes: seq<Node>): multiset<Node> {
    if nodes == [] then multiset{} else FilesOf(nodes[0]) + FilesOfAll(nodes[1..])
  }

  // Some file that would be looked at cannot be read.
  predicate Unreadable(node: Node)
    decreases Size(node), 0
  {
    if IsDir(node) then
      SizeOfDirectory(node);
      AnyUnreadableEntry(EntriesOf(node))
    else !IsReadable(node)
  }

  predicate AnyUnreadableEntry(entries: seq<Node>)
    decreases SizeOfAll(entries), 1
  {
    entries != []
    && ((!entries[0].Link? && !entries[0].hidden && Unreadable(entries[0])) || AnyUnreadableEntry(entries[1..]))
  }

  // ---- The list, breadth first ----

  // The files of the list in the order the packer comes to them.
  function Expanded(nodes: seq<Node>): seq<Node>
    decreases SizeOfAll(nodes)
  {
    if nodes == [] then []
    else
      if IsDir(nodes[0]) then
        SizeOfListed(EntriesOf(nodes[0]));
        SizeOfBoth(nodes[1..], Listed(EntriesOf(nodes[0])));
        SizeOfDirectory(nodes[0]);
        Expanded(nodes[1..] + Listed(EntriesOf(nodes[0])))
      else (if nodes[0].hidden then [] else [nodes[0]]) + Expanded(nodes[1..])
  }

  lemma {:induction false} SizeOfListed(entries: seq<Node>)
    ensures SizeOfAll(Listed(entries)) <= SizeOfAll(entries)
  {
    if entries != [] {
      SizeOfListed(entries[1..]);
      SizeOfBoth([entries[0]], Listed(entries[1..]));
      SizeOfOne(entries[0]);
      assert [] + Listed(entries[1..]) == Listed(entries[1..]);
    }
  }

  lemma {:induction false} SizeOfBoth(a: seq<Node>, b: seq<Node>)
    ensures SizeOfAll(a + b) == SizeOfAll(a) + SizeOfAll(b)
  {
    if a == [] {
      assert a + b == b;
    } else {
      assert (a + b)[1..] == a[1..] + b;
      SizeOfBoth(a[1..], b);
    }
  }

  lemma SizeOfOne(node: Node)
    ensures SizeOfAll([node]) == Size(node)
  {
    assert [node][1..] == [];
  }

  lemma FilesOfOne(node: Node)
    ensures FilesOfAll([node]) == FilesOf(node)
  {
    assert [node][1..] == [];
  }

  lemma {:induction false} FilesOfBoth(a: seq<Node>, b: seq<Node>)
    ensures FilesOfAll(a + b) == FilesOfAll(a) + FilesOfAll(b)
  {
    if a == [] {
      assert a + b == b;
    } else {
      assert (a + b)[1..] == a[1..] + b;
      FilesOfBoth(a[1..], b);
    }
  }

  lemma {:induction false} FilesOfListed(entries: seq<Node>)
    ensures FilesOfAll(Listed(entries)) == FilesOfEntries(entries)
  {
    if entries != [] {
      FilesOfListed(entries[1..]);
      FilesOfBoth([entries[0]], Listed(entries[1..]));
      FilesOfOne(entries[0]);
      assert [] + Listed(entries[1..]) == Listed(entries[1..]);
    }
  }

  // The list holds the files of all its nodes, as often as they are there.
  lemma {:induction false} ExpandedHoldsAllFiles(nodes: seq<Node>)
    ensures multiset(Expanded(nodes)) == FilesOfAll(nodes)
    decreases SizeOfAll(nodes)
  {
    if nodes != [] {
      var rest := nodes[1..];
      if IsDir(nodes[0]) {
        var entries := EntriesOf(nodes[0]);
        SizeOfListed(entries);
        SizeOfBoth(rest, Listed(entries));
        SizeOfDirectory(nodes[0]);
        ExpandedHoldsAllFiles(rest + Listed(entries));
        FilesOfBoth(rest, Listed(entries));
        FilesOfListed(entries);
      } else {
        ExpandedHoldsAllFiles(rest);
      }
    }
  }

  // ---- What counts as what ----

  // A link is a directory, or a file to be read, if what it leads to is; one that leads nowhere cannot be read.
  lemma LinksAreFollowed(path: string, hidden: bool, to: Node)
    ensures IsDir(Link(path, hidden, Some(to))) <==> IsDir(to)
    ensures IsReadable(Link(path, hidden, Some(to))) <==> IsReadable(to)
    ensures EntriesOf(Link(path, hidden, Some(to))) == EntriesOf(to)
    ensures !IsDir(Link(path, hidden, None)) && !IsReadable(Link(path, hidden, None))
  {
  }

  lemma FilesAndDirectories(path: string, hidden: bool, readable: bool, entries: seq<Node>)
    ensures !IsDir(File(path, hidden, readable)) && (IsReadable(File(path, hidden, readable)) <==> readable)
    ensures IsDir(Dir(path, hidden, entries)) && EntriesOf(Dir(path, hidden, entries)) == entries
  {
  }

  // A listing gives every entry that is neither hidden nor a link, at its place.
  lemma {:induction false} EntryIsListed(entries: seq<Node>, k: nat)
    requires k < |entries|
    ensures Listed(entries)
            == Listed(entries[..k]) + (if entries[k].hidden || entries[k].Link? then [] else [entries[k]])
               + Listed(entries[k + 1..])
    ensures Listed([]) == []
    decreases k
  {
    if k > 0 {
      EntryIsListed(entries[1..], k - 1);
      assert entries[1..][..k - 1] == entries[..k][1..] && entries[1..][k..] == entries[k + 1..];
      assert entries[..k][0] == entries[0];
    }
  }

  // Files come in the order of the list; what a directory lists comes after the rest of the list.
  lemma FilesComeFirst(file: Node, dir: Node, rest: seq<Node>)
    requires !IsDir(file) && IsDir(dir)
    ensures Expanded([]) == []
    ensures Expanded([file] + rest) == (if file.hidden then [] else [file]) + Expanded(rest)
    ensures Expanded([dir] + rest) == Expanded(rest + Listed(EntriesOf(dir)))
  {
    assert ([file] + rest)[1..] == rest && ([dir] + rest)[1..] == rest;
  }

  // ---- The loop ----

  predicate Plain(nodes: seq<Node>) {
    forall n :: n in nodes ==> !IsDir(n) && !n.hidden && IsReadable(n)
  }

  lemma {:induction false} PlainStays(plain: seq<Node>, rest: seq<Node>)
    requires Plain(plain)
    ensures Expanded(plain + rest) == plain + Expanded(rest)
  {
    if plain == [] {
      assert plain + rest == rest;
    } else {
      assert (plain + rest)[1..] == plain[1..] + rest;
      PlainStays(plain[1..], rest);
    }
  }

  ghost predicate AnyUnreadable(nodes: seq<Node>) {
    exists n :: n in nodes && Unreadable(n)
  }

  lemma UnreadableListed(dir: Node)
    requires IsDir(dir)
    ensures Unreadable(dir) <==> AnyUnreadable(Listed(EntriesOf(dir)))
  {
    UnreadableEntries(EntriesOf(dir));
  }

  lemma {:induction false} UnreadableEntries(entries: seq<Node>)
    ensures AnyUnreadableEntry(entries) <==> AnyUnreadable(Listed(entries))
  {
    hide Unreadable;
    if entries != [] {
      UnreadableEntries(entries[1..]);
      forall n ensures n in Listed(entries) <==>
                       n in Listed(entries[1..]) || (n == entries[0] && !n.Link? && !n.hidden) {
      }
    }
  }

  // The directory at i is replaced by what it lists, at the end.
  function Replaced(nodes: seq<Node>, i: nat): seq<Node>
    requires i < |nodes| && IsDir(nodes[i])
  {
    nodes[..i] + nodes[i + 1..] + Listed(EntriesOf(nodes[i]))
  }

  lemma SizeSplit(nodes: seq<Node>, i: nat)
    requires i < |nodes|
    ensures SizeOfAll(nodes) == SizeOfAll(nodes[..i]) + Size(nodes[i]) + SizeOfAll(nodes[i + 1..])
  {
    assert nodes == nodes[..i] + nodes[i..];
    SizeOfBoth(nodes[..i], nodes[i..]);
  }

  lemma ReplacedDirectory(nodes: seq<Node>, i: nat)
    requires i < |nodes| && IsDir(nodes[i]) && Plain(nodes[..i])
    ensures Expanded(Replaced(nodes, i)) == Expanded(nodes)
    ensures SizeOfAll(Replaced(nodes, i)) < SizeOfAll(nodes)
    ensures AnyUnreadable(Replaced(nodes, i)) <==> AnyUnreadable(nodes)
  {
    hide Unreadable, SizeOfAll, Listed;
    var plain, rest, listed := nodes[..i], nodes[i + 1..], Listed(EntriesOf(nodes[i]));
    assert nodes == plain + nodes[i..] && nodes[i..][1..] == rest && Replaced(nodes, i) == plain + (rest + listed);
    PlainStays(plain, nodes[i..]);
    PlainStays(plain, rest + listed);
    ReplacedSize(nodes, i);
    UnreadableListed(nodes[i]);
    forall n ensures n in nodes <==> n in plain || n == nodes[i] || n in rest {
    }
  }

  lemma ReplacedSize(nodes: seq<Node>, i: nat)
    requires i < |nodes| && IsDir(nodes[i])
    ensures SizeOfAll(Replaced(nodes, i)) < SizeOfAll(nodes)
  {
    var plain, rest, listed := nodes[..i], nodes[i + 1..], Listed(EntriesOf(nodes[i]));
    SizeSplit(nodes, i);
    SizeOfBoth(plain, rest);
    SizeOfBoth(plain + rest, listed);
    SizeOfListed(EntriesOf(nodes[i]));
    SizeOfDirectory(nodes[i]);
  }

  lemma HiddenFileDropped(nodes: seq<Node>, i: nat)
    requires i < |nodes| && !IsDir(nodes[i]) && nodes[i].hidden && IsReadable(nodes[i]) && Plain(nodes[..i])
    ensures var t := nodes[..i] + nodes[i + 1..];
            && Expanded(t) == Expanded(nodes)
            && SizeOfAll(t) < SizeOfAll(nodes)
            && (AnyUnreadable(t) <==> AnyUnreadable(nodes))
  {
    hide SizeOfAll, Size, Expanded, Unreadable, IsDir, IsReadable, Plain;
    var plain, rest := nodes[..i], nodes[i + 1..];
    assert nodes == plain + nodes[i..] && nodes[i..] == [nodes[i]] + rest;
    HiddenFileFirst(nodes[i], rest);
    PlainStays(plain, nodes[i..]);
    PlainStays(plain, rest);
    SizeSplit(nodes, i);
    SizeOfBoth(plain, rest);
    forall n ensures n in nodes <==> n in plain || n == nodes[i] || n in rest {
    }
  }

  lemma HiddenFileFirst(file: Node, rest: seq<Node>)
    requires !IsDir(file) && file.hidden && IsReadable(file)
    ensures Expanded([file] + rest) == Expanded(rest) && !Unreadable(file)
  {
    assert ([file] + rest)[1..] == rest;
  }

  lemma PlainIsExpanded(nodes: seq<Node>)
    requires Plain(nodes)
    ensures Expanded(nodes) == nodes && !AnyUnreadable(nodes)
  {
    PlainStays(nodes, []);
    assert nodes + [] == nodes;
  }

  // The loop in main: it ends, with the files of the arguments, breadth first, and fails exactly when one of
  // the files it would look at cannot be read.
  method ExpandFiles(arguments: seq<Node>) returns (ok: bool, files: seq<Node>)
    ensures ok <==> !AnyUnreadable(arguments)
    ensures ok ==> files == Expanded(arguments) && Plain(files)
    ensures ok ==> multiset(files) == FilesOfAll(arguments)
  {
    hide Expanded, AnyUnreadable, SizeOfAll, Unreadable, FilesOfAll;
    files := arguments;
    var hasDirs := true;
    while hasDirs
      invariant Expanded(files) == Expanded(arguments) && (AnyUnreadable(files) <==> AnyUnreadable(arguments))
      invariant !hasDirs ==> Plain(files)
      decreases SizeOfAll(files), if hasDirs then 1 else 0
    {
      hasDirs := false;
      var i := 0;
      while i < |files|
        invariant i <= |files| && !hasDirs && Plain(files[..i])
      {
        var info := files[i];
        if IsDir(info) {
          hasDirs := true;
          ReplacedDirectory(files, i);
          files := files[..i] + files[i + 1..];
          files := files + Listed(EntriesOf(info));
          break;
        } else if !IsReadable(info) {
          UnreadableFile(files, i);
          ok := false;
          return;
        } else if info.hidden {
          hasDirs := true;
          HiddenFileDropped(files, i);
          files := files[..i] + files[i + 1..];
          break;
        }
        i := i + 1;
      }
      assert !hasDirs ==> files[..|files|] == files;
    }
    PlainIsExpanded(files);
    ExpandedHoldsAllFiles(arguments);
    ok := true;
  }

  lemma UnreadableFile(nodes: seq<Node>, i: nat)
    requires i < |nodes| && !IsDir(nodes[i]) && !IsReadable(nodes[i])
    ensures AnyUnreadable(nodes)
  {
    assert Unreadable(nodes[i]);
  }
}
