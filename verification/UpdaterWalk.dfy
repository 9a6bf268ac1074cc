// The updater's walk over the unpacked update (update in updater_linux.cpp): the files to copy with their
// targets and the directories to make, found breadth first.
module UpdaterWalk {
  import opened Options

  // A file tree. stat fails on Unknown; opendir fails on a directory that does not open.
  datatype Node = Unknown | File | Dir(opens: bool, entries: seq<Entry>)
  datatype Entry = Entry(name: string, node: Node)

  // The updater's globals, and whether the ready marker was found.
  datatype Config = Config(workDir: string, exePath: string, exeName: string, updaterName: string, readyFound: bool)

  datatype Outcome = Walked | NotOpened | BadUpdate

  function UpdDir(c: Config): string {
    c.workDir + if c.readyFound then "tupdates/temp" else "tupdates/ready"
  }

  function TdataDir(c: Config): string {
    UpdDir(c) + "/tdata"
  }

  function ReadyFilePath(c: Config): string {
    c.workDir + "tupdates/temp/ready"
  }

  function LowerChar(ch: char): char {
    if 'A' <= ch <= 'Z' then ch - 'A' + 'a' else ch
  }

  function Lower(s: string): string {
    seq(|s|, i requires 0 <= i < |s| => LowerChar(s[i]))
  }

  // equal
  predicate EqualNames(a: string, b: string) {
    Lower(a) == Lower(b)
  }

  predicate Skipped(c: Config, fname: string) {
    TdataDir(c) <= fname && (|fname| == |TdataDir(c)| || fname[|TdataDir(c)|] == '/')
  }

  // The path within the update; a path in it is longer than the path of the update.
  function Relative(c: Config, path: string): string {
    if |path| > |UpdDir(c)| then path[|UpdDir(c)| + 1..] else ""
  }

  function TargetDir(c: Config, dir: string): string {
    c.exePath + Relative(c, dir) + "/"
  }

  function Target(c: Config, fname: string): string {
    c.exePath + Relative(c, fname)
  }

  // The program itself keeps the name it has.
  function CopyTarget(c: Config, fname: string): string {
    if EqualNames(Target(c, fname), c.exePath + "Telegram") && c.exeName != "Telegram" then c.exePath + c.exeName
    else Target(c, fname)
  }

  // ---- What is in a part of the tree, without tdata ----

  // The files to copy, the targets of directories, the updater's files, the directories that do not open, and how
  // many nodes there are.
  datatype Sum = Sum(
    files: multiset<string>, dirs: multiset<string>, updaters: multiset<string>, closed: multiset<string>, nodes: nat)

  const NONE := Sum(multiset{}, multiset{}, multiset{}, multiset{}, 0)

  function Add(a: Sum, b: Sum): Sum {
    Sum(a.files + b.files, a.dirs + b.dirs, a.updaters + b.updaters, a.closed + b.closed, a.nodes + b.nodes)
  }

  function SumOfEntries(c: Config, dir: string, entries: seq<Entry>): Sum
    decreases entries
  {
    if entries == [] then NONE
    else
      var last := entries[|entries| - 1];
      Add(SumOfEntries(c, dir, entries[..|entries| - 1]), SumOfNode(c, dir + "/" + last.name, last.node))
  }

  function SumOfNode(c: Config, fname: string, node: Node): Sum
    decreases node
  {
    if Skipped(c, fname) then NONE.(nodes := 1)
    else
      match node
      case Unknown => NONE.(nodes := 1)
      case File =>
        Sum(if fname == ReadyFilePath(c) then multiset{} else multiset{fname}, multiset{},
            if EqualNames(Target(c, fname), c.updaterName) then multiset{fname} else multiset{}, multiset{}, 1)
      case Dir(opens, entries) => Add(SumOfDir(c, fname, opens), SumOfEntries(c, fname, entries))
  }

  function SumOfDir(c: Config, dir: string, opens: bool): Sum {
    Sum(multiset{}, if |dir| > |UpdDir(c)| + 1 then multiset{TargetDir(c, dir)} else multiset{}, multiset{},
        if opens then multiset{} else multiset{dir}, 1)
  }

  // A directory of the queue; the root may be no directory at all.
  function SumOfQueued(c: Config, dir: string, node: Node): Sum {
    if node.Dir? then Add(SumOfDir(c, dir, node.opens), SumOfEntries(c, dir, node.entries))
    else NONE.(closed := multiset{dir}, nodes := 1)
  }

  // A path of the queue, with the node it names.
  datatype Queued = Queued(path: string, node: Node)

  function SumOfQueue(c: Config, dirs: seq<Queued>): Sum {
    if dirs == [] then NONE else Add(SumOfQueued(c, dirs[0].path, dirs[0].node), SumOfQueue(c, dirs[1..]))
  }

  lemma {:induction false} OneMoreQueued(c: Config, dirs: seq<Queued>, d: Queued)
    ensures SumOfQueue(c, dirs + [d]) == Add(SumOfQueue(c, dirs), SumOfQueued(c, d.path, d.node))
  {
    hide SumOfQueued;
    if dirs == [] {
      assert (dirs + [d])[1..] == [];
    } else {
      assert (dirs + [d])[1..] == dirs[1..] + [d];
      OneMoreQueued(c, dirs[1..], d);
    }
  }

  // ---- Names ----

  predicate IsName(name: string) {
    name != "" && '/' !in name
  }

  // The names of a directory's entries are names and differ.
  predicate WellNamed(node: Node)
    decreases node
  {
    node.Dir? ==>
      && (forall k :: 0 <= k < |node.entries| ==> IsName(node.entries[k].name) && WellNamed(node.entries[k].node))
      && (forall j, k :: 0 <= j < k < |node.entries| ==> node.entries[j].name != node.entries[k].name)
  }

  // A path of the update.
  predicate Inside(c: Config, path: string) {
    path == UpdDir(c) || (|path| > |UpdDir(c)| + 1 && UpdDir(c) + "/" <= path)
  }

  lemma InsideEntry(c: Config, dir: string, name: string)
    requires Inside(c, dir) && IsName(name)
    ensures Inside(c, dir + "/" + name) && dir + "/" + name != UpdDir(c)
    ensures Target(c, dir + "/" + name) == (if dir == UpdDir(c) then c.exePath else TargetDir(c, dir)) + name
    ensures TargetDir(c, dir + "/" + name) == (if dir == UpdDir(c) then c.exePath else TargetDir(c, dir)) + name + "/"
  {
    var u := UpdDir(c);
    var path := dir + "/" + name;
    assert |path| > |u| + 1;
    assert path[..|u| + 1] == u + "/" by {
      if dir == u {
        assert path[|u|] == '/';
      } else {
        assert dir[..|u| + 1] == u + "/";
        assert path[..|u| + 1] == dir[..|u| + 1];
      }
    }
    if dir == u {
      assert Relative(c, path) == name;
    } else {
      assert Relative(c, path) == Relative(c, dir) + "/" + name;
    }
  }

  // ---- Directories are made before what is put into them ----

  predicate IsIn(path: string, c: Config, dirs: seq<string>, name: string) {
    IsName(name) && (path == c.exePath + name || exists p :: p in dirs && path == p + name)
  }

  // A file straight in the program's directory or in one of these.
  ghost predicate HasDirectory(path: string, c: Config, dirs: seq<string>) {
    exists name :: IsIn(path, c, dirs, name)
  }

  predicate IsDirIn(path: string, c: Config, dirs: seq<string>, name: string) {
    IsName(name) && (path == c.exePath + name + "/" || exists p :: p in dirs && path == p + name + "/")
  }

  ghost predicate HasParent(path: string, c: Config, dirs: seq<string>) {
    exists name :: IsDirIn(path, c, dirs, name)
  }

  ghost predicate ParentsFirst(c: Config, dirs: seq<string>) {
    forall i :: 0 <= i < |dirs| ==> HasParent(dirs[i], c, dirs[..i])
  }

  lemma MoreDirectories(path: string, c: Config, dirs: seq<string>, more: seq<string>)
    requires forall p :: p in dirs ==> p in more
    ensures HasDirectory(path, c, dirs) ==> HasDirectory(path, c, more)
    ensures HasParent(path, c, dirs) ==> HasParent(path, c, more)
  {
    if HasDirectory(path, c, dirs) {
      var name :| IsIn(path, c, dirs, name);
      assert IsIn(path, c, more, name);
    }
    if HasParent(path, c, dirs) {
      var name :| IsDirIn(path, c, dirs, name);
      assert IsDirIn(path, c, more, name);
    }
  }

  lemma OneMoreForced(c: Config, dirs: seq<string>, path: string)
    requires ParentsFirst(c, dirs) && HasParent(path, c, dirs)
    ensures ParentsFirst(c, dirs + [path])
  {
    hide HasParent;
    var now := dirs + [path];
    forall i | 0 <= i < |now| ensures HasParent(now[i], c, now[..i]) {
      assert now[..i] == if i < |dirs| then dirs[..i] else dirs;
    }
  }

  lemma EntryHasParent(c: Config, dir: string, name: string, forced: seq<string>)
    requires Inside(c, dir) && IsName(name)
    requires dir == UpdDir(c) || TargetDir(c, dir) in forced
    ensures HasParent(TargetDir(c, dir + "/" + name), c, forced)
    ensures HasDirectory(Target(c, dir + "/" + name), c, forced)
  {
    InsideEntry(c, dir, name);
    assert IsDirIn(TargetDir(c, dir + "/" + name), c, forced, name);
    assert IsIn(Target(c, dir + "/" + name), c, forced, name);
  }

  lemma CopyTargetHasDirectory(c: Config, fname: string, forced: seq<string>)
    requires HasDirectory(Target(c, fname), c, forced) && IsName(c.exeName)
    ensures HasDirectory(CopyTarget(c, fname), c, forced)
  {
    assert IsIn(c.exePath + c.exeName, c, forced, c.exeName);
  }

  // ---- The walk ----

  // What was found and what the queue still leads to.
  function Seen(c: Config, dirs: seq<Queued>, from: seq<string>, forced: seq<string>): Sum {
    Add(Sum(multiset(from), multiset(forced), multiset{}, multiset{}, 0), SumOfQueue(c, dirs)).(nodes := 0)
  }

  predicate CopiesRight(c: Config, from: seq<string>, to: seq<string>) {
    |to| == |from| && forall i :: 0 <= i < |from| ==> to[i] == CopyTarget(c, from[i])
  }

  ghost predicate QueueRight(c: Config, dirs: seq<Queued>, forced: seq<string>) {
    forall d :: d in dirs ==>
      && Inside(c, d.path)
      && WellNamed(d.node)
      && (d.path == UpdDir(c) || HasParent(TargetDir(c, d.path), c, forced))
  }

  ghost predicate TargetsRight(c: Config, to: seq<string>, forced: seq<string>) {
    forall t :: t in to ==> HasDirectory(t, c, forced)
  }

  // One directory's entries, up to the k-th.
  ghost predicate EntriesSeen(c: Config, dir: string, entries: seq<Entry>, k: nat, forced: seq<string>,
                              was: seq<Queued>, fromWas: seq<string>, dirs: seq<Queued>, from: seq<string>, to: seq<string>)
  {
    && k <= |entries|
    && Seen(c, dirs, from, forced) == Add(Seen(c, was, fromWas, forced), SumOfEntries(c, dir, entries[..k])).(nodes := 0)
    && SumOfQueue(c, dirs).nodes <= SumOfQueue(c, was).nodes + SumOfEntries(c, dir, entries[..k]).nodes
    && CopiesRight(c, from, to) && TargetsRight(c, to, forced) && QueueRight(c, dirs, forced)
  }

  lemma EntriesStep(c: Config, dir: string, entries: seq<Entry>, k: nat)
    requires k < |entries|
    ensures SumOfEntries(c, dir, entries[..k + 1])
            == Add(SumOfEntries(c, dir, entries[..k]), SumOfNode(c, dir + "/" + entries[k].name, entries[k].node))
  {
    assert entries[..k + 1][..k] == entries[..k];
  }

  lemma EntrySkipped(c: Config, dir: string, entries: seq<Entry>, k: nat, forced: seq<string>,
                     was: seq<Queued>, fromWas: seq<string>, dirs: seq<Queued>, from: seq<string>, to: seq<string>)
    requires EntriesSeen(c, dir, entries, k, forced, was, fromWas, dirs, from, to) && k < |entries|
    requires SumOfNode(c, dir + "/" + entries[k].name, entries[k].node) == NONE.(nodes := 1)
    ensures EntriesSeen(c, dir, entries, k + 1, forced, was, fromWas, dirs, from, to)
  {
    hide Seen, SumOfQueue, SumOfEntries, SumOfNode, CopiesRight, TargetsRight, QueueRight;
    EntriesStep(c, dir, entries, k);
  }

  lemma OneMoreRight(c: Config, dir: string, entry: Entry, dirs: seq<Queued>, forced: seq<string>)
    requires QueueRight(c, dirs, forced) && Inside(c, dir) && IsName(entry.name) && WellNamed(entry.node)
    requires dir == UpdDir(c) || TargetDir(c, dir) in forced
    ensures QueueRight(c, dirs + [Queued(dir + "/" + entry.name, entry.node)], forced)
  {
    hide HasParent, WellNamed, Inside, TargetDir, UpdDir;
    InsideEntry(c, dir, entry.name);
    EntryHasParent(c, dir, entry.name, forced);
  }

  lemma EntryQueued(c: Config, dir: string, entries: seq<Entry>, k: nat, forced: seq<string>,
                    was: seq<Queued>, fromWas: seq<string>, dirs: seq<Queued>, from: seq<string>, to: seq<string>)
    requires EntriesSeen(c, dir, entries, k, forced, was, fromWas, dirs, from, to) && k < |entries|
    requires Inside(c, dir) && IsName(entries[k].name) && WellNamed(entries[k].node) && entries[k].node.Dir?
    requires dir == UpdDir(c) || TargetDir(c, dir) in forced
    requires !Skipped(c, dir + "/" + entries[k].name)
    ensures EntriesSeen(c, dir, entries, k + 1, forced, was, fromWas,
                        dirs + [Queued(dir + "/" + entries[k].name, entries[k].node)], from, to)
  {
    hide SumOfQueue, SumOfEntries, CopiesRight, TargetsRight, Inside, Skipped, TargetDir, UpdDir, SumOfDir, QueueRight, WellNamed;
    var d := Queued(dir + "/" + entries[k].name, entries[k].node);
    EntriesStep(c, dir, entries, k);
    OneMoreQueued(c, dirs, d);
    OneMoreRight(c, dir, entries[k], dirs, forced);
    assert SumOfNode(c, d.path, d.node) == SumOfQueued(c, d.path, d.node);
    var after := dirs + [d];
    assert SumOfQueue(c, after) == Add(SumOfQueue(c, dirs), SumOfQueued(c, d.path, d.node));
    assert Seen(c, after, from, forced) == Add(Seen(c, dirs, from, forced), SumOfQueued(c, d.path, d.node)).(nodes := 0);
  }

  lemma SeenOneMoreFile(c: Config, dirs: seq<Queued>, from: seq<string>, forced: seq<string>, fname: string)
    ensures Seen(c, dirs, from + [fname], forced)
            == Add(Seen(c, dirs, from, forced), Sum(multiset{fname}, multiset{}, multiset{}, multiset{}, 1)).(nodes := 0)
  {
    hide SumOfQueue;
    assert multiset(from + [fname]) == multiset(from) + multiset{fname};
  }

  lemma OneMoreCopy(c: Config, from: seq<string>, to: seq<string>, fname: string, forced: seq<string>)
    requires CopiesRight(c, from, to) && TargetsRight(c, to, forced)
    requires HasDirectory(CopyTarget(c, fname), c, forced)
    ensures CopiesRight(c, from + [fname], to + [CopyTarget(c, fname)])
    ensures TargetsRight(c, to + [CopyTarget(c, fname)], forced)
  {
    hide HasDirectory, CopyTarget;
  }

  lemma SumsAssociate(a: Sum, b: Sum, c: Sum)
    ensures Add(Add(a, b).(nodes := 0), c).(nodes := 0) == Add(a, Add(b, c)).(nodes := 0)
  {
  }

  lemma EntryListed(c: Config, dir: string, entries: seq<Entry>, k: nat, forced: seq<string>,
                    was: seq<Queued>, fromWas: seq<string>, dirs: seq<Queued>, from: seq<string>, to: seq<string>)
    requires EntriesSeen(c, dir, entries, k, forced, was, fromWas, dirs, from, to) && k < |entries|
    requires Inside(c, dir) && IsName(entries[k].name) && entries[k].node == File && IsName(c.exeName)
    requires dir == UpdDir(c) || TargetDir(c, dir) in forced
    requires var fname := dir + "/" + entries[k].name;
             !Skipped(c, fname) && fname != ReadyFilePath(c) && !EqualNames(Target(c, fname), c.updaterName)
    ensures var fname := dir + "/" + entries[k].name;
            EntriesSeen(c, dir, entries, k + 1, forced, was, fromWas, dirs, from + [fname], to + [CopyTarget(c, fname)])
  {
    hide SumOfQueue, SumOfEntries, QueueRight, Inside, Skipped, TargetDir, UpdDir, HasDirectory, Target, CopyTarget,
         Seen, CopiesRight, TargetsRight, Add, EqualNames;
    var fname := dir + "/" + entries[k].name;
    EntriesStep(c, dir, entries, k);
    EntryHasParent(c, dir, entries[k].name, forced);
    CopyTargetHasDirectory(c, fname, forced);
    OneMoreCopy(c, from, to, fname, forced);
    SeenOneMoreFile(c, dirs, from, forced, fname);
    assert SumOfNode(c, fname, entries[k].node) == Sum(multiset{fname}, multiset{}, multiset{}, multiset{}, 1);
    NodesAdd(SumOfEntries(c, dir, entries[..k]), SumOfNode(c, fname, entries[k].node));
    SumsAssociate(Seen(c, was, fromWas, forced), SumOfEntries(c, dir, entries[..k]), SumOfNode(c, fname, entries[k].node));
  }

  lemma NodesAdd(a: Sum, b: Sum)
    ensures Add(a, b).nodes == a.nodes + b.nodes
  {
  }

  // An update with the updater itself among its files shows in the sum of its directory.
  lemma {:induction false} UpdaterShows(c: Config, dir: string, entries: seq<Entry>, k: nat)
    requires k < |entries| && SumOfNode(c, dir + "/" + entries[k].name, entries[k].node).updaters != multiset{}
    ensures SumOfEntries(c, dir, entries).updaters != multiset{}
    decreases |entries|
  {
    if k < |entries| - 1 {
      UpdaterShows(c, dir, entries[..|entries| - 1], k);
    }
  }

  // The entries of one directory of the queue.
  method ReadEntries(c: Config, dir: string, entries: seq<Entry>, dirs: seq<Queued>, from: seq<string>, to: seq<string>,
                     ghost forced: seq<string>)
    returns (ok: bool, dirs': seq<Queued>, from': seq<string>, to': seq<string>)
    requires IsName(c.exeName) && Inside(c, dir) && WellNamed(Dir(true, entries))
    requires dir == UpdDir(c) || TargetDir(c, dir) in forced
    requires CopiesRight(c, from, to) && TargetsRight(c, to, forced) && QueueRight(c, dirs, forced)
    ensures ok ==> EntriesSeen(c, dir, entries, |entries|, forced, dirs, from, dirs', from', to')
    ensures !ok ==> SumOfEntries(c, dir, entries).updaters != multiset{}
  {
    hide EntriesSeen, CopiesRight, TargetsRight, QueueRight, Inside, Skipped, TargetDir, UpdDir, Target, CopyTarget;
    ok, dirs', from', to' := true, dirs, from, to;
    NoneSeen(c, dir, entries, forced, dirs, from, to);
    var k := 0;
    while k < |entries|
      invariant k <= |entries| && ok
      invariant EntriesSeen(c, dir, entries, k, forced, dirs, from, dirs', from', to')
    {
      var fname := dir + "/" + entries[k].name;
      var node := entries[k].node;
      if Skipped(c, fname) || node == Unknown {
        EntrySkipped(c, dir, entries, k, forced, dirs, from, dirs', from', to');
      } else if node.Dir? {
        EntryQueued(c, dir, entries, k, forced, dirs, from, dirs', from', to');
        dirs' := dirs' + [Queued(fname, node)];
      } else {
        var tofname := Target(c, fname);
        if EqualNames(tofname, c.updaterName) {
          UpdaterShows(c, dir, entries, k);
          ok := false;
          return;
        } else if EqualNames(tofname, c.exePath + "Telegram") && c.exeName != "Telegram" {
          tofname := c.exePath + c.exeName;
        }
        assert tofname == CopyTarget(c, fname) by { CopyTargetIs(c, fname); }
        if fname == ReadyFilePath(c) {
          EntrySkipped(c, dir, entries, k, forced, dirs, from, dirs', from', to');
        } else {
          EntryListed(c, dir, entries, k, forced, dirs, from, dirs', from', to');
          from' := from' + [fname];
          to' := to' + [tofname];
        }
      }
      k := k + 1;
    }
  }

  lemma CopyTargetIs(c: Config, fname: string)
    ensures CopyTarget(c, fname)
            == if EqualNames(Target(c, fname), c.exePath + "Telegram") && c.exeName != "Telegram" then c.exePath + c.exeName
               else Target(c, fname)
  {
  }

  lemma NoneSeen(c: Config, dir: string, entries: seq<Entry>, forced: seq<string>,
                 dirs: seq<Queued>, from: seq<string>, to: seq<string>)
    requires CopiesRight(c, from, to) && TargetsRight(c, to, forced) && QueueRight(c, dirs, forced)
    ensures EntriesSeen(c, dir, entries, 0, forced, dirs, from, dirs, from, to)
  {
  }

  // The walk so far: what was found and what is still queued add up to the whole update.
  ghost predicate Walking(c: Config, root: Node, dirs: seq<Queued>, from: seq<string>, to: seq<string>, forced: seq<string>) {
    && Seen(c, dirs, from, forced) == SumOfQueued(c, UpdDir(c), root).(nodes := 0)
    && CopiesRight(c, from, to) && TargetsRight(c, to, forced) && QueueRight(c, dirs, forced)
    && ParentsFirst(c, forced)
  }

  lemma QueuedRight(c: Config, dirs: seq<Queued>, forced: seq<string>, more: seq<string>)
    requires QueueRight(c, dirs, forced) && forall p :: p in forced ==> p in more
    ensures QueueRight(c, dirs, more)
  {
    hide HasParent, Inside, WellNamed, TargetDir;
    forall d | d in dirs ensures HasParent(TargetDir(c, d.path), c, forced) ==> HasParent(TargetDir(c, d.path), c, more) {
      MoreDirectories(TargetDir(c, d.path), c, forced, more);
    }
  }

  lemma TargetsStayRight(c: Config, to: seq<string>, forced: seq<string>, more: seq<string>)
    requires TargetsRight(c, to, forced) && forall p :: p in forced ==> p in more
    ensures TargetsRight(c, to, more)
  {
    forall t | t in to ensures HasDirectory(t, c, more) {
      MoreDirectories(t, c, forced, more);
    }
  }

  function Forced(c: Config, dir: string): seq<string> {
    if |dir| > |UpdDir(c)| + 1 then [TargetDir(c, dir)] else []
  }

  // The first directory of the queue is taken out and noted.
  lemma DirectoryTaken(c: Config, root: Node, dirs: seq<Queued>, from: seq<string>, to: seq<string>, forced: seq<string>)
    requires Walking(c, root, dirs, from, to, forced) && dirs != []
    ensures var d := dirs[0];
            var more := forced + Forced(c, d.path);
            && Inside(c, d.path) && WellNamed(d.node)
            && (d.path == UpdDir(c) || TargetDir(c, d.path) in more)
            && CopiesRight(c, from, to) && TargetsRight(c, to, more) && QueueRight(c, dirs[1..], more) && ParentsFirst(c, more)
  {
    hide Seen, CopiesRight, TargetsRight, HasParent, ParentsFirst, TargetDir, UpdDir, WellNamed;
    var d := dirs[0];
    var more := forced + Forced(c, d.path);
    assert d in dirs;
    assert QueueRight(c, dirs[1..], forced);
    QueuedRight(c, dirs[1..], forced, more);
    TargetsStayRight(c, to, forced, more);
    if d.path == UpdDir(c) {
      assert more == forced;
    } else {
      OneMoreForced(c, forced, TargetDir(c, d.path));
    }
  }

  lemma QueueOfDirectory(c: Config, dirs: seq<Queued>)
    requires dirs != [] && dirs[0].node.Dir?
    ensures var d := dirs[0];
            SumOfQueue(c, dirs)
            == Add(Add(SumOfDir(c, d.path, d.node.opens), SumOfEntries(c, d.path, d.node.entries)), SumOfQueue(c, dirs[1..]))
  {
  }

  lemma Rearranged(a: multiset<string>, b: multiset<string>, c: multiset<string>, d: multiset<string>)
    ensures a + (b + c + d) == a + b + d + c
  {
  }

  lemma SumsRearranged(f: Sum, d: Sum, e: Sum, q: Sum)
    ensures Add(f, Add(Add(d, e), q)).(nodes := 0) == Add(Add(Add(f, d), q).(nodes := 0), e).(nodes := 0)
  {
    Rearranged(f.files, d.files, e.files, q.files);
    Rearranged(f.dirs, d.dirs, e.dirs, q.dirs);
    Rearranged(f.updaters, d.updaters, e.updaters, q.updaters);
    Rearranged(f.closed, d.closed, e.closed, q.closed);
  }

  lemma SeenOfDirectory(c: Config, from: seq<string>, forced: seq<string>, dir: string, entries: Sum,
                        dirs: seq<Queued>, rest: seq<Queued>)
    requires SumOfQueue(c, dirs) == Add(Add(SumOfDir(c, dir, true), entries), SumOfQueue(c, rest))
    ensures Add(Seen(c, rest, from, forced + Forced(c, dir)), entries).(nodes := 0) == Seen(c, dirs, from, forced)
  {
    hide TargetDir, UpdDir, SumOfQueue;
    var found := Sum(multiset(from), multiset(forced), multiset{}, multiset{}, 0);
    SumsRearranged(found, SumOfDir(c, dir, true), entries, SumOfQueue(c, rest));
    assert multiset(forced + Forced(c, dir)) == multiset(forced) + SumOfDir(c, dir, true).dirs;
    assert Add(found, SumOfDir(c, dir, true)).(nodes := 0)
           == Sum(multiset(from), multiset(forced + Forced(c, dir)), multiset{}, multiset{}, 0);
  }

  lemma DirectorySum(c: Config, root: Node, dirs: seq<Queued>, from: seq<string>, to: seq<string>, forced: seq<string>)
    requires Walking(c, root, dirs, from, to, forced) && dirs != [] && dirs[0].node.Dir?
    ensures var d := dirs[0];
            var total := SumOfQueued(c, UpdDir(c), root);
            var entries := SumOfEntries(c, d.path, d.node.entries);
            && (!d.node.opens ==> total.closed != multiset{})
            && (entries.updaters != multiset{} ==> total.updaters != multiset{})
            && (d.node.opens ==>
                  Add(Seen(c, dirs[1..], from, forced + Forced(c, d.path)), entries).(nodes := 0) == total.(nodes := 0))
            && SumOfQueue(c, dirs).nodes == 1 + entries.nodes + SumOfQueue(c, dirs[1..]).nodes
  {
    hide CopiesRight, TargetsRight, QueueRight, ParentsFirst, SumOfEntries, SumOfQueue, SumOfQueued, Forced, TargetDir, UpdDir;
    var d := dirs[0];
    QueueOfDirectory(c, dirs);
    if d.node.opens {
      SeenOfDirectory(c, from, forced, d.path, SumOfEntries(c, d.path, d.node.entries), dirs, dirs[1..]);
    }
  }

  lemma NotOpenedIsClosed(c: Config, root: Node, dirs: seq<Queued>, from: seq<string>, to: seq<string>, forced: seq<string>)
    requires Walking(c, root, dirs, from, to, forced) && dirs != [] && !dirs[0].node.Dir?
    ensures SumOfQueued(c, UpdDir(c), root).closed != multiset{}
  {
  }

  lemma DirectoryRead(c: Config, root: Node, dir: Queued, rest: seq<Queued>, fromWas: seq<string>,
                      dirs: seq<Queued>, from: seq<string>, to: seq<string>, forced: seq<string>)
    requires dir.node.Dir? && ParentsFirst(c, forced)
    requires Add(Seen(c, rest, fromWas, forced), SumOfEntries(c, dir.path, dir.node.entries)).(nodes := 0)
             == SumOfQueued(c, UpdDir(c), root).(nodes := 0)
    requires EntriesSeen(c, dir.path, dir.node.entries, |dir.node.entries|, forced, rest, fromWas, dirs, from, to)
    ensures Walking(c, root, dirs, from, to, forced)
    ensures SumOfQueue(c, dirs).nodes <= SumOfQueue(c, rest).nodes + SumOfEntries(c, dir.path, dir.node.entries).nodes
  {
    hide CopiesRight, TargetsRight, QueueRight, ParentsFirst, SumOfEntries, SumOfQueue, SumOfQueued, Seen;
    assert dir.node.entries[..|dir.node.entries|] == dir.node.entries;
  }

  lemma WalkBegins(c: Config, root: Node)
    requires WellNamed(root)
    ensures Walking(c, root, [Queued(UpdDir(c), root)], [], [], [])
  {
    hide SumOfQueued, WellNamed, UpdDir;
    var dirs := [Queued(UpdDir(c), root)];
    assert dirs[1..] == [];
    assert SumOfQueue(c, dirs) == SumOfQueued(c, UpdDir(c), root);
    assert Seen(c, dirs, [], []) == SumOfQueue(c, dirs).(nodes := 0);
  }

  // The walk of update: it ends, and unless a directory cannot be opened or the updater is among the files,
  // it lists every file and every directory as often as the tree has it, each copy with its target, and
  // every directory after its parent.
  method Walk(c: Config, root: Node) returns (outcome: Outcome, from: seq<string>, to: seq<string>, forced: seq<string>)
    requires IsName(c.exeName) && WellNamed(root)
    ensures var total := SumOfQueued(c, UpdDir(c), root);
            && (outcome.Walked? <==> total.updaters == multiset{} == total.closed)
            && (outcome.BadUpdate? ==> total.updaters != multiset{})
            && (outcome.NotOpened? ==> total.closed != multiset{})
            && (outcome.Walked? ==> multiset(from) == total.files && multiset(forced) == total.dirs)
    ensures outcome.Walked? ==> CopiesRight(c, from, to) && TargetsRight(c, to, forced) && ParentsFirst(c, forced)
  {
    hide Walking, SumOfQueue, SumOfQueued, UpdDir, TargetDir, SumOfEntries, Inside, EntriesSeen, CopiesRight,
         TargetsRight, QueueRight, ParentsFirst, WellNamed, IsName, Seen;
    var dirs := [Queued(UpdDir(c), root)];
    from, to, forced := [], [], [];
    WalkBegins(c, root);
    while dirs != []
      invariant Walking(c, root, dirs, from, to, forced)
      decreases SumOfQueue(c, dirs).nodes
    {
      DirectoryTaken(c, root, dirs, from, to, forced);
      var dir := dirs[0];
      ghost var was := dirs;
      if dir.node.Dir? {
        DirectorySum(c, root, dirs, from, to, forced);
      } else {
        NotOpenedIsClosed(c, root, dirs, from, to, forced);
      }
      dirs := dirs[1..];
      if |dir.path| > |UpdDir(c)| + 1 {
        forced := forced + [TargetDir(c, dir.path)];
      } else {
        assert forced + [] == forced;
      }
      if !dir.node.Dir? || !dir.node.opens {
        outcome := NotOpened;
        return;
      }
      assert dir.node == Dir(true, dir.node.entries);
      var ok, dirs', from', to' := ReadEntries(c, dir.path, dir.node.entries, dirs, from, to, forced);
      if !ok {
        outcome := BadUpdate;
        return;
      }
      DirectoryRead(c, root, dir, dirs, from, dirs', from', to', forced);
      dirs, from, to := dirs', from', to';
    }
    WalkEnds(c, root, from, to, forced);
    outcome := Walked;
  }

  lemma WalkEnds(c: Config, root: Node, from: seq<string>, to: seq<string>, forced: seq<string>)
    requires Walking(c, root, [], from, to, forced)
    ensures var total := SumOfQueued(c, UpdDir(c), root);
            && total.updaters == multiset{} == total.closed && multiset(from) == total.files && multiset(forced) == total.dirs
    ensures CopiesRight(c, from, to) && TargetsRight(c, to, forced) && ParentsFirst(c, forced)
  {
  }

  // ---- What the sums mean ----

  // The node that names lead to, one directory after another.
  function Find(entries: seq<Entry>, name: string): Option<Node>
    decreases entries
  {
    if entries == [] then None
    else
      var last := entries[|entries| - 1];
      if last.name == name then Some(last.node) else Find(entries[..|entries| - 1], name)
  }

  function Lookup(node: Node, names: seq<string>): Option<Node>
    decreases |names|
  {
    if names == [] then Some(node) else if node.Dir? then LookupIn(node.entries, names) else None
  }

  function LookupIn(entries: seq<Entry>, names: seq<string>): Option<Node>
    requires names != []
    decreases |names|, 0
  {
    match Find(entries, names[0])
    case None => None
    case Some(node) => Lookup(node, names[1..])
  }

  function Path(dir: string, names: seq<string>): string
    decreases |names|
  {
    if names == [] then dir else Path(dir + "/" + names[0], names[1..])
  }

  datatype Kind = Files | Directories | Updaters | Closed

  function Part(s: Sum, kind: Kind): multiset<string> {
    match kind
    case Files => s.files
    case Directories => s.dirs
    case Updaters => s.updaters
    case Closed => s.closed
  }

  // A file is listed by its path, a directory by its target.
  predicate IsListing(c: Config, path: string, found: Node, kind: Kind, s: string) {
    match kind
    case Files => found == File && s == path && s != ReadyFilePath(c)
    case Directories => found.Dir? && s == TargetDir(c, path)
    case Updaters => found == File && s == path && EqualNames(Target(c, path), c.updaterName)
    case Closed => found.Dir? && !found.opens && s == path
  }

  predicate Lists(c: Config, fname: string, node: Node, names: seq<string>, kind: Kind, s: string) {
    Lookup(node, names).Some? && IsListing(c, Path(fname, names), Lookup(node, names).value, kind, s)
  }

  predicate ListsIn(c: Config, dir: string, entries: seq<Entry>, names: seq<string>, kind: Kind, s: string) {
    && names != [] && (dir == UpdDir(c) ==> names[0] != "tdata")
    && LookupIn(entries, names).Some?
    && IsListing(c, Path(dir, names), LookupIn(entries, names).value, kind, s)
  }

  // The only entry that is skipped is tdata, at the top.
  lemma OnlyTdataIsSkipped(c: Config, dir: string, name: string)
    requires Inside(c, dir) && IsName(name) && !Skipped(c, dir)
    ensures Skipped(c, dir + "/" + name) <==> dir == UpdDir(c) && name == "tdata"
  {
    var u, t := UpdDir(c), TdataDir(c);
    var path := dir + "/" + name;
    assert t == u + "/tdata" && |t| == |u| + 6;
    assert path[|dir|] == '/';
    if dir == u {
      assert path[|u| + 1..] == name;
      if name == "tdata" {
        assert path == t;
      } else if t <= path {
        assert path[..|t|][|u| + 1..] == t[|u| + 1..] == "tdata";
        assert name[..5] == "tdata";
      }
    } else {
      assert |dir| >= |t| ==> dir[..|t|] == path[..|t|];
      assert forall i :: |u| < i < |t| ==> t[i] != '/';
    }
  }

  lemma {:induction false} PathExtends(dir: string, names: seq<string>)
    ensures dir <= Path(dir, names) && (names == [] ==> Path(dir, names) == dir)
    ensures names != [] ==> dir + "/" + names[0] <= Path(dir, names)
    ensures |names| > 1 ==> dir + "/" + names[0] + "/" <= Path(dir, names)
    ensures |names| == 1 ==> dir + "/" + names[0] == Path(dir, names)
    decreases |names|
  {
    if names != [] {
      PathExtends(dir + "/" + names[0], names[1..]);
    }
  }

  // A path tells the first name that led to it.
  lemma PathTellsName(dir: string, a: seq<string>, b: seq<string>)
    requires a != [] && b != [] && IsName(a[0]) && IsName(b[0])
    requires Path(dir, a) == Path(dir, b)
    ensures a[0] == b[0]
  {
    PathExtends(dir, a);
    PathExtends(dir, b);
    var path := Path(dir, a);
    var x, y, n := a[0], b[0], |dir| + 1;
    assert path[n..n + |x|] == x && path[n..n + |y|] == y;
    assert |path| == n + |x| || path[n + |x|] == '/';
    assert |path| == n + |y| || path[n + |y|] == '/';
    assert forall i :: 0 <= i < |x| ==> path[n + i] == x[i] != '/';
    assert forall i :: 0 <= i < |y| ==> path[n + i] == y[i] != '/';
  }

  predicate NamesOk(entries: seq<Entry>) {
    && (forall k :: 0 <= k < |entries| ==> IsName(entries[k].name) && WellNamed(entries[k].node))
    && (forall j, k :: 0 <= j < k < |entries| ==> entries[j].name != entries[k].name)
  }

  lemma {:induction false} FindFindsNames(entries: seq<Entry>, name: string)
    ensures Find(entries, name).Some? <==> exists k :: 0 <= k < |entries| && entries[k].name == name
    decreases |entries|
  {
    if entries != [] {
      FindFindsNames(entries[..|entries| - 1], name);
    }
  }

  // A directory whose entries are walked.
  predicate Below(c: Config, dir: string) {
    Inside(c, dir) && !Skipped(c, dir)
  }

  lemma RootIsBelow(c: Config)
    ensures Below(c, UpdDir(c))
  {
  }

  ghost predicate IsListed(c: Config, fname: string, node: Node, kind: Kind, s: string) {
    exists names :: Lists(c, fname, node, names, kind, s)
  }

  ghost predicate IsListedIn(c: Config, dir: string, entries: seq<Entry>, kind: Kind, s: string) {
    exists names :: ListsIn(c, dir, entries, names, kind, s)
  }

  // A file stands for itself, a directory for itself and what its entries list.
  lemma ListedByNode(c: Config, fname: string, node: Node, kind: Kind, s: string)
    requires fname != UpdDir(c)
    ensures IsListed(c, fname, node, kind, s)
            <==> IsListing(c, fname, node, kind, s) || (node.Dir? && IsListedIn(c, fname, node.entries, kind, s))
  {
    hide IsListing, UpdDir, ReadyFilePath;
    if IsListing(c, fname, node, kind, s) {
      assert Lists(c, fname, node, [], kind, s);
    }
    if node.Dir? && IsListedIn(c, fname, node.entries, kind, s) {
      var names :| ListsIn(c, fname, node.entries, names, kind, s);
      assert Lists(c, fname, node, names, kind, s);
    }
    if IsListed(c, fname, node, kind, s) {
      var names :| Lists(c, fname, node, names, kind, s);
      assert names != [] ==> ListsIn(c, fname, node.entries, names, kind, s);
    }
  }

  // What is listed comes from the last entry or from those before it.
  lemma ListedByEntries(c: Config, dir: string, entries: seq<Entry>, kind: Kind, s: string)
    requires entries != [] && NamesOk(entries)
    ensures var rest, last := entries[..|entries| - 1], entries[|entries| - 1];
            IsListedIn(c, dir, entries, kind, s)
            <==> IsListedIn(c, dir, rest, kind, s)
                 || (!(dir == UpdDir(c) && last.name == "tdata") && IsListed(c, dir + "/" + last.name, last.node, kind, s))
  {
    hide IsListing, UpdDir, Lookup;
    var rest, last := entries[..|entries| - 1], entries[|entries| - 1];
    FindFindsNames(rest, last.name);
    forall names | ListsIn(c, dir, entries, names, kind, s)
      ensures IsListedIn(c, dir, rest, kind, s)
              || (!(dir == UpdDir(c) && last.name == "tdata") && IsListed(c, dir + "/" + last.name, last.node, kind, s))
    {
      if names[0] == last.name {
        assert Lists(c, dir + "/" + last.name, last.node, names[1..], kind, s);
      } else {
        assert ListsIn(c, dir, rest, names, kind, s);
      }
    }
    forall names | ListsIn(c, dir, rest, names, kind, s) ensures ListsIn(c, dir, entries, names, kind, s) {
    }
    forall names | Lists(c, dir + "/" + last.name, last.node, names, kind, s) && !(dir == UpdDir(c) && last.name == "tdata")
      ensures ListsIn(c, dir, entries, [last.name] + names, kind, s)
    {
      assert ([last.name] + names)[1..] == names;
    }
  }

  lemma NamesOkPrefix(entries: seq<Entry>)
    requires entries != [] && NamesOk(entries)
    ensures NamesOk(entries[..|entries| - 1])
  {
  }

  // The sums hold exactly what is listed.
  lemma {:induction false} SumOfEntriesIs(c: Config, dir: string, entries: seq<Entry>, kind: Kind, s: string)
    requires Below(c, dir) && NamesOk(entries)
    ensures s in Part(SumOfEntries(c, dir, entries), kind) <==> IsListedIn(c, dir, entries, kind, s)
    decreases entries
  {
    hide Below, Inside, Skipped, UpdDir, IsListed, IsListedIn, NamesOk;
    if entries == [] {
      NothingListed(c, dir, kind, s);
    } else {
      var last := entries[|entries| - 1];
      NamesOkPrefix(entries);
      LastIsName(entries);
      SumOfEntriesIs(c, dir, entries[..|entries| - 1], kind, s);
      ListedByEntries(c, dir, entries, kind, s);
      EntryBelow(c, dir, last.name);
      if !Skipped(c, dir + "/" + last.name) {
        SumOfNodeIs(c, dir + "/" + last.name, last.node, kind, s);
      }
    }
  }

  lemma LastIsName(entries: seq<Entry>)
    requires entries != [] && NamesOk(entries)
    ensures IsName(entries[|entries| - 1].name) && WellNamed(entries[|entries| - 1].node)
  {
  }

  lemma NothingListed(c: Config, dir: string, kind: Kind, s: string)
    ensures !IsListedIn(c, dir, [], kind, s)
  {
  }

  lemma EntryBelow(c: Config, dir: string, name: string)
    requires Below(c, dir) && IsName(name)
    ensures var fname := dir + "/" + name;
            && (Skipped(c, fname) <==> dir == UpdDir(c) && name == "tdata")
            && fname != UpdDir(c) && (!Skipped(c, fname) ==> Below(c, fname))
  {
    InsideEntry(c, dir, name);
    OnlyTdataIsSkipped(c, dir, name);
  }

  lemma {:induction false} SumOfNodeIs(c: Config, fname: string, node: Node, kind: Kind, s: string)
    requires Below(c, fname) && fname != UpdDir(c) && WellNamed(node)
    ensures s in Part(SumOfNode(c, fname, node), kind) <==> IsListed(c, fname, node, kind, s)
    decreases node
  {
    hide IsListed, IsListedIn, UpdDir, TargetDir, ReadyFilePath, Skipped, Target, EqualNames, SumOfEntries;
    ListedByNode(c, fname, node, kind, s);
    if node.Dir? {
      SumOfEntriesIs(c, fname, node.entries, kind, s);
    }
  }

  // ---- Nothing is listed twice ----

  lemma LongerInside(c: Config, path: string, longer: string)
    requires Inside(c, path) && path != UpdDir(c) && path <= longer
    ensures Inside(c, longer) && longer != UpdDir(c)
  {
    assert longer[..|path|] == path;
    assert longer[..|UpdDir(c)| + 1] == path[..|UpdDir(c)| + 1];
  }

  lemma ListingTellsPath(c: Config, a: string, b: string, kind: Kind, x: Node, y: Node, s: string)
    requires Inside(c, a) && Inside(c, b) && a != UpdDir(c) && b != UpdDir(c)
    requires IsListing(c, a, x, kind, s) && IsListing(c, b, y, kind, s)
    ensures a == b
  {
    var u := UpdDir(c);
    assert a == u + "/" + a[|u| + 1..] && b == u + "/" + b[|u| + 1..];
    if kind == Directories {
      var n := |c.exePath|;
      assert s[n..|s| - 1] == Relative(c, a);
      assert s[n..|s| - 1] == Relative(c, b);
    }
  }

  // The names of what is listed begin with the name of an entry.
  lemma FirstNameIsEntry(c: Config, dir: string, entries: seq<Entry>, names: seq<string>, kind: Kind, s: string)
    requires Below(c, dir) && NamesOk(entries) && ListsIn(c, dir, entries, names, kind, s)
    ensures IsName(names[0]) && HasName(entries, names[0])
    ensures Inside(c, Path(dir, names)) && Path(dir, names) != UpdDir(c) && Path(dir, names) != dir
  {
    hide IsListing, Skipped, Lookup;
    FindFindsNames(entries, names[0]);
    InsideEntry(c, dir, names[0]);
    PathExtends(dir, names);
    assert |Path(dir, names)| > |dir|;
    LongerInside(c, dir + "/" + names[0], Path(dir, names));
  }

  lemma EntriesListApart(c: Config, dir: string, entries: seq<Entry>, kind: Kind, s: string)
    requires Below(c, dir) && entries != [] && NamesOk(entries)
    requires IsListedIn(c, dir, entries[..|entries| - 1], kind, s)
    ensures !IsListedIn(c, dir, entries[|entries| - 1..], kind, s)
  {
    hide Below, Inside, NamesOk, IsListing, Path, Lookup;
    var rest, last := entries[..|entries| - 1], entries[|entries| - 1..];
    var a :| ListsIn(c, dir, rest, a, kind, s);
    forall b | ListsIn(c, dir, last, b, kind, s) ensures false {
      NamesOkParts(entries);
      FirstNameIsEntry(c, dir, rest, a, kind, s);
      FirstNameIsEntry(c, dir, last, b, kind, s);
      ListingTellsPath(c, Path(dir, a), Path(dir, b), kind, LookupIn(rest, a).value, LookupIn(last, b).value, s);
      PathTellsName(dir, a, b);
      NamesApart(entries, a[0]);
    }
  }

  lemma NamesOkParts(entries: seq<Entry>)
    requires entries != [] && NamesOk(entries)
    ensures NamesOk(entries[..|entries| - 1]) && NamesOk(entries[|entries| - 1..])
  {
  }

  predicate HasName(entries: seq<Entry>, name: string) {
    exists k :: 0 <= k < |entries| && entries[k].name == name
  }

  lemma NamesApart(entries: seq<Entry>, name: string)
    requires entries != [] && NamesOk(entries) && HasName(entries[..|entries| - 1], name)
    ensures entries[|entries| - 1].name != name
  {
  }

  lemma {:induction false} EntriesListOnce(c: Config, dir: string, entries: seq<Entry>, kind: Kind, s: string)
    requires Below(c, dir) && NamesOk(entries)
    ensures Part(SumOfEntries(c, dir, entries), kind)[s] <= 1
    decreases entries
  {
    hide Below, Inside, Skipped, UpdDir, IsListed, IsListedIn, NamesOk;
    if entries != [] {
      var rest, last := entries[..|entries| - 1], entries[|entries| - 1];
      NamesOkParts(entries);
      LastIsName(entries);
      EntriesListOnce(c, dir, rest, kind, s);
      EntryBelow(c, dir, last.name);
      if !Skipped(c, dir + "/" + last.name) {
        NodeListsOnce(c, dir + "/" + last.name, last.node, kind, s);
        SumOfEntriesIs(c, dir, rest, kind, s);
        SumOfOne(c, dir, last);
        SumOfEntriesIs(c, dir, entries[|entries| - 1..], kind, s);
        if s in Part(SumOfEntries(c, dir, rest), kind) {
          EntriesListApart(c, dir, entries, kind, s);
        }
      }
    }
  }

  lemma SumOfOne(c: Config, dir: string, entry: Entry)
    ensures SumOfEntries(c, dir, [entry]) == SumOfNode(c, dir + "/" + entry.name, entry.node)
  {
    assert [entry][..0] == [];
    assert Add(NONE, SumOfNode(c, dir + "/" + entry.name, entry.node)) == SumOfNode(c, dir + "/" + entry.name, entry.node);
  }

  lemma {:induction false} NodeListsOnce(c: Config, fname: string, node: Node, kind: Kind, s: string)
    requires Below(c, fname) && fname != UpdDir(c) && WellNamed(node)
    ensures Part(SumOfNode(c, fname, node), kind)[s] <= 1
    decreases node
  {
    hide IsListed, IsListedIn, IsListing, UpdDir, TargetDir, ReadyFilePath, Below, SumOfDir;
    if node.Dir? {
      EntriesListOnce(c, fname, node.entries, kind, s);
      SumOfEntriesIs(c, fname, node.entries, kind, s);
      if s in Part(SumOfEntries(c, fname, node.entries), kind) {
        EntriesAreNotTheirDirectory(c, fname, node, kind, s);
      }
      DirListsItself(c, fname, node, kind, s);
    }
  }

  lemma DirListsItself(c: Config, dir: string, node: Node, kind: Kind, s: string)
    requires node.Dir? && Below(c, dir) && dir != UpdDir(c)
    ensures Part(SumOfNode(c, dir, node), kind)[s]
            == (if IsListing(c, dir, node, kind, s) then 1 else 0) + Part(SumOfEntries(c, dir, node.entries), kind)[s]
  {
    hide TargetDir, UpdDir, Skipped;
    assert |dir| > |UpdDir(c)| + 1;
  }

  lemma EntriesAreNotTheirDirectory(c: Config, dir: string, node: Node, kind: Kind, s: string)
    requires Below(c, dir) && dir != UpdDir(c) && node.Dir? && NamesOk(node.entries)
    requires IsListedIn(c, dir, node.entries, kind, s)
    ensures !IsListing(c, dir, node, kind, s)
  {
    hide NamesOk, Path, Lookup, IsListing;
    var names :| ListsIn(c, dir, node.entries, names, kind, s);
    FirstNameIsEntry(c, dir, node.entries, names, kind, s);
    if IsListing(c, dir, node, kind, s) {
      ListingTellsPath(c, Path(dir, names), dir, kind, LookupIn(node.entries, names).value, node, s);
    }
  }

  // The walk's lists, for any update: what they hold, each once.
  lemma WalkListsEveryFileAndDirectoryOnce(c: Config, root: Node, kind: Kind, s: string)
    requires WellNamed(root) && root.Dir?
    ensures Part(SumOfQueued(c, UpdDir(c), root), kind)[s]
            == (if exists names :: ListsIn(c, UpdDir(c), root.entries, names, kind, s) then 1 else 0)
               + (if kind == Closed && !root.opens && s == UpdDir(c) then 1 else 0)
  {
    hide Below, IsListing, UpdDir;
    RootIsBelow(c);
    SumOfEntriesIs(c, UpdDir(c), root.entries, kind, s);
    EntriesListOnce(c, UpdDir(c), root.entries, kind, s);
  }

  // ---- Where the files go ----

  // Names with slashes between them.
  function Slashed(names: seq<string>): string {
    if names == [] then "" else if |names| == 1 then names[0] else names[0] + "/" + Slashed(names[1..])
  }

  lemma {:induction false} PathIsSlashed(dir: string, names: seq<string>)
    requires names != []
    ensures Path(dir, names) == dir + "/" + Slashed(names)
    decreases |names|
  {
    if |names| > 1 {
      PathIsSlashed(dir + "/" + names[0], names[1..]);
      assert dir + "/" + names[0] + "/" + Slashed(names[1..]) == dir + "/" + (names[0] + "/" + Slashed(names[1..]));
    } else {
      assert names[1..] == [];
    }
  }

  // What names lead to in the update goes where they lead in the program's directory.
  lemma TargetOfNames(c: Config, names: seq<string>)
    requires names != []
    ensures var update := c.workDir + (if c.readyFound then "tupdates/temp" else "tupdates/ready");
            && UpdDir(c) == update
            && Target(c, Path(update, names)) == c.exePath + Slashed(names)
            && TargetDir(c, Path(update, names)) == c.exePath + Slashed(names) + "/"
            && TdataDir(c) == update + "/tdata" && ReadyFilePath(c) == c.workDir + "tupdates/temp/ready"
  {
    var u := UpdDir(c);
    PathIsSlashed(u, names);
    assert (u + "/" + Slashed(names))[|u| + 1..] == Slashed(names);
  }

  // Names are equal when they have the same letters, in either case, and the same other characters.
  lemma EqualNamesIff(a: string, b: string)
    ensures EqualNames(a, b) <==>
            |a| == |b|
            && forall i :: 0 <= i < |a| ==>
                 a[i] == b[i] || ('A' <= a[i] <= 'Z' && b[i] as int == a[i] as int + 32)
                 || ('A' <= b[i] <= 'Z' && a[i] as int == b[i] as int + 32)
  {
    if EqualNames(a, b) {
      assert |Lower(a)| == |Lower(b)|;
      forall i | 0 <= i < |a|
        ensures a[i] == b[i] || ('A' <= a[i] <= 'Z' && b[i] as int == a[i] as int + 32)
                || ('A' <= b[i] <= 'Z' && a[i] as int == b[i] as int + 32)
      {
        assert Lower(a)[i] == Lower(b)[i];
      }
    }
  }

  // A file keeps its place but for the program itself, which takes the name the program has.
  lemma ProgramIsRenamed(c: Config, names: seq<string>)
    requires names != []
    ensures CopyTarget(c, Path(UpdDir(c), names))
            == if EqualNames(c.exePath + Slashed(names), c.exePath + "Telegram") && c.exeName != "Telegram"
               then c.exePath + c.exeName else c.exePath + Slashed(names)
  {
    hide EqualNames;
    TargetOfNames(c, names);
  }

  // ---- Making a directory with all those it is in ----

  // The directories a path goes through: it is cut at each slash that ends a name.
  function Prefixes(path: string, n: nat): (r: seq<string>)
    requires n <= |path|
  {
    if n == 0 then []
    else Prefixes(path, n - 1) + if path[n - 1] == '/' && n > 1 && path[n - 2] != '/' then [path[..n - 1]] else []
  }

  // A C string in a buffer.
  function CString(s: string): string {
    if s == "" || s[0] == '\0' then "" else [s[0]] + CString(s[1..])
  }

  lemma {:induction false} CStringEnds(s: string, n: nat)
    requires n < |s| && s[n] == '\0' && '\0' !in s[..n]
    ensures CString(s) == s[..n]
  {
    if n > 0 {
      assert s[0] == s[..n][0];
      assert s[1..][..n - 1] == s[..n][1..];
      CStringEnds(s[1..], n - 1);
      assert s[..n] == [s[0]] + s[1..][..n - 1];
    }
  }

  // A new directory is made after every directory it is in.
  lemma {:induction false} PrefixesInOrder(path: string, n: nat, i: nat)
    requires n <= |path| && i < |Prefixes(path, n)|
    ensures var p := Prefixes(path, n)[i];
            && 0 < |p| < n && p < path && path[|p|] == '/' && p[|p| - 1] != '/'
            && (forall j :: 0 <= j < i ==> Prefixes(path, n)[j] < p)
  {
    if i < |Prefixes(path, n - 1)| {
      PrefixesInOrder(path, n - 1, i);
    } else {
      forall j | 0 <= j < i ensures Prefixes(path, n)[j] < path[..n - 1] {
        PrefixesInOrder(path, n - 1, j);
      }
    }
  }

  lemma {:induction false} EveryCutIsMade(path: string, n: nat, k: nat)
    requires 0 < k < n <= |path| && path[k] == '/' && path[k - 1] != '/'
    ensures path[..k] in Prefixes(path, n)
  {
    if k < n - 1 {
      EveryCutIsMade(path, n - 1, k);
    }
  }

  lemma NoCut(path: string)
    ensures Prefixes(path, 0) == []
  {
  }

  lemma OneCut(path: string, n: nat)
    requires n < |path|
    ensures Prefixes(path, n + 1)
            == Prefixes(path, n) + if path[n] == '/' && n > 0 && path[n - 1] != '/' then [path[..n]] else []
  {
  }

  // mkpath; making a directory fails for these paths. The buffer is cut at one slash at a time.
  method MkPath(path: string, failing: set<string>) returns (ok: bool, made: seq<string>)
    requires '\0' !in path
    ensures ok <==> forall p :: p in Prefixes(path, |path|) + [path] ==> p !in failing
    ensures made <= Prefixes(path, |path|) + [path] && forall k :: 0 <= k < |made| - 1 ==> made[k] !in failing
    ensures made != [] && (ok ==> made == Prefixes(path, |path|) + [path]) && (!ok ==> made[|made| - 1] in failing)
  {
    hide CString, Prefixes;
    var copypath := new char[|path| + 1](i => if 0 <= i < |path| then path[i] else '\0');
    made := [];
    NoCut(path);
    var pp, sp := 0, 0;
    while sp < |path|
      invariant pp <= sp <= |path|
      invariant pp == 0 || path[pp - 1] == '/'
      invariant '/' !in path[pp..sp]
      invariant copypath[..] == path + ['\0']
      invariant made == Prefixes(path, sp) && forall p :: p in made ==> p !in failing
    {
      // strchr
      OneCut(path, sp);
      if copypath[sp] == '/' {
        if sp != pp {
          copypath[sp] := '\0';
          CStringEnds(copypath[..], sp);
          var dir := CString(copypath[..]);
          assert dir == path[..sp];
          made := made + [dir];
          if dir in failing {
            PrefixesGrow(path, sp + 1);
            assert made == Prefixes(path, sp + 1);
            assert dir in Prefixes(path, |path|) by { assert made[|made| - 1] == dir; }
            ok := false;
            return;
          }
          copypath[sp] := '/';
        }
        pp := sp + 1;
      }
      sp := sp + 1;
    }
    made := made + [path];
    ok := path !in failing;
  }

  lemma {:induction false} PrefixesGrow(path: string, n: nat)
    requires n <= |path|
    ensures Prefixes(path, n) <= Prefixes(path, |path|)
    decreases |path| - n
  {
    if n < |path| {
      PrefixesGrow(path, n + 1);
    }
  }
}
