// The DOM as values: what a subtree looks like, whoever holds it.
module DomTree {
  import opened Options

  // Node.nodeType
  const ELEMENT_NODE := 1
  const TEXT_NODE := 3
  const COMMENT_NODE := 8

  datatype Tree = Tree(kind: int, name: string, attrs: map<string, string>, value: string, kids: seq<Tree>)

  function UpperChar(c: char): char {
    if 'a' <= c <= 'z' then c - 32 as char else c
  }

  // String.prototype.toUpperCase on ASCII names.
  function Upper(s: string): (u: string)
    ensures |u| == |s|
  {
    seq(|s|, i requires 0 <= i < |s| => UpperChar(s[i]))
  }

  // charCodeAt(0), which is not a number for the empty name, so no comparison with it holds.
  predicate StartsAtMost(s: string, code: int) {
    s != "" && s[0] as int <= code
  }

  predicate StartsAtLeast(s: string, code: int) {
    s != "" && s[0] as int >= code
  }

  predicate CompareNodeNames(fromName: string, toName: string) {
    if fromName == toName then true
    else if StartsAtMost(fromName, 90) && StartsAtLeast(toName, 97) then fromName == Upper(toName)
    else if StartsAtMost(toName, 90) && StartsAtLeast(fromName, 97) then toName == Upper(fromName)
    else false
  }

  predicate IsCharacterData(kind: int) {
    kind == TEXT_NODE || kind == COMMENT_NODE
  }

  // Whether morphChildren keeps the old child f for the new child t.
  predicate Compatible(f: Tree, t: Tree) {
    f.kind == t.kind
    && (if f.kind == ELEMENT_NODE then CompareNodeNames(f.name, t.name) else IsCharacterData(f.kind))
  }

  // What a hook (onBeforeElUpdated) does with a pair of elements: it may give the new one another class
  // attribute, and then either leaves the old one alone or lets it be updated.
  datatype Verdict = Verdict(leave: bool, newClass: Option<string>)

  type Hook = (Tree, Tree) -> Verdict

  const NO_HOOK: Hook := (f, t) => Verdict(false, None)

  function Classed(attrs: map<string, string>, newClass: Option<string>): map<string, string> {
    if newClass.Some? then attrs["class" := newClass.value] else attrs
  }

  // What morphEl makes of an old element f when the target is t.
  function Morph(f: Tree, t: Tree, hook: Hook): Tree
    decreases t, 0, 0
  {
    if hook(f, t).leave then f
    else Tree(f.kind, f.name, Classed(t.attrs, hook(f, t).newClass), f.value, MorphKids(f.kids, t.kids, hook))
  }

  // What morphChildren makes of the old children fs when the target's children are ts: the first
  // compatible old child is kept for each new one, older ones go, and new ones fill in at the end.
  function MorphKids(fs: seq<Tree>, ts: seq<Tree>, hook: Hook): seq<Tree>
    decreases ts, 1, |fs|
  {
    if ts == [] then []
    else if fs == [] then ts
    else if !Compatible(fs[0], ts[0]) then MorphKids(fs[1..], ts, hook)
    else [MorphChild(fs[0], ts[0], hook)] + MorphKids(fs[1..], ts[1..], hook)
  }

  function MorphChild(f: Tree, t: Tree, hook: Hook): Tree
    decreases t, 1, 0
  {
    if t.kind == ELEMENT_NODE then Morph(f, t, hook) else f.(value := t.value)
  }

  // Character data has no attributes and no children, and its node name is fixed by its type.
  predicate WellFormed(t: Tree)
    decreases t
  {
    (t.kind == ELEMENT_NODE ==> t.value == "")
    && (t.kind != ELEMENT_NODE ==> t.attrs == map[] && t.kids == [])
    && (t.kind == TEXT_NODE ==> t.name == "#text")
    && (t.kind == COMMENT_NODE ==> t.name == "#comment")
    && forall k | k in t.kids :: WellFormed(k)
  }

  // getNodeKey: the id, if there is one.
  predicate HasKey(t: Tree) {
    "id" in t.attrs && t.attrs["id"] != ""
  }

  // The elements that specialElHandlers has a handler for.
  predicate IsFormElement(name: string) {
    name == "OPTION" || name == "INPUT" || name == "TEXTAREA" || name == "SELECT"
  }

  // No node carries a key, and none is a form element: morphdom matches nodes by their place alone.
  predicate Plain(t: Tree)
    decreases t
  {
    !HasKey(t) && !IsFormElement(t.name) && forall k | k in t.kids :: Plain(k)
  }

  predicate AllPlain(ts: seq<Tree>) {
    forall t | t in ts :: Plain(t)
  }

  // Elements that may be left as they are, and attributes that may stand for others.
  type Keep = (Tree, Tree) -> bool
  type Alike = (map<string, string>, map<string, string>) -> bool

  // r shows what t describes, up to the case of node names and with attributes alike, except inside elements
  // that may be kept.
  ghost predicate Reaches(r: Tree, t: Tree, keep: Keep, alike: Alike)
    decreases t
  {
    r.kind == t.kind && Upper(r.name) == Upper(t.name)
    && ((t.kind == ELEMENT_NODE && keep(r, t))
        || (alike(r.attrs, t.attrs) && r.value == t.value && |r.kids| == |t.kids|
            && forall i | 0 <= i < |t.kids| :: Reaches(r.kids[i], t.kids[i], keep, alike)))
  }

  // The same tree up to the case of node names.
  ghost predicate Same(r: Tree, t: Tree) {
    Reaches(r, t, (f, u) => false, (a, b) => a == b)
  }

  // The hook leaves alone only what may be kept or is right already, and changes a class only to one alike.
  ghost predicate Fits(hook: Hook, keep: Keep, alike: Alike) {
    && (forall a :: alike(a, a))
    && (forall f, t :: hook(f, t).leave ==> keep(f, t) || Reaches(f, t, keep, alike))
    && (forall f, t :: !hook(f, t).leave ==> alike(Classed(t.attrs, hook(f, t).newClass), t.attrs))
  }

  // What morphdom returns for a root f and a target t.
  function MorphRoot(f: Tree, t: Tree, hook: Hook): Tree {
    if f.kind == ELEMENT_NODE && t.kind == ELEMENT_NODE then
      if CompareNodeNames(f.name, t.name) then Morph(f, t, hook)
      else Morph(Tree(ELEMENT_NODE, t.name, map[], "", f.kids), t, hook)
    else if IsCharacterData(f.kind) && f.kind == t.kind then f.(value := t.value)
    else t
  }

  lemma MorphRootReaches(f: Tree, t: Tree, hook: Hook, keep: Keep, alike: Alike)
    requires WellFormed(f) && WellFormed(t) && Plain(f) && Plain(t) && Fits(hook, keep, alike)
    ensures Reaches(MorphRoot(f, t, hook), t, keep, alike)
  {
    if f.kind == ELEMENT_NODE && t.kind == ELEMENT_NODE {
      if CompareNodeNames(f.name, t.name) {
        ComparedNamesAgree(f.name, t.name);
        MorphReaches(f, t, hook, keep, alike);
      } else {
        MorphReaches(Tree(ELEMENT_NODE, t.name, map[], "", f.kids), t, hook, keep, alike);
      }
    } else if !(IsCharacterData(f.kind) && f.kind == t.kind) {
      ReachesItself(t, keep, alike);
    }
  }

  // With no hook, or with one that changes nothing and leaves alone only elements that are already right,
  // morphdom's result is the target up to the case of node names.
  lemma MorphRootIsTarget(f: Tree, t: Tree, hook: Hook)
    requires WellFormed(f) && WellFormed(t) && Plain(f) && Plain(t)
    requires forall g, u :: if hook(g, u).leave then Same(g, u) else hook(g, u).newClass.None?
    ensures Same(MorphRoot(f, t, hook), t)
    ensures Same(MorphRoot(f, t, NO_HOOK), t)
  {
    MorphRootReaches(f, t, hook, (g, u) => false, (a, b) => a == b);
    MorphRootReaches(f, t, NO_HOOK, (g, u) => false, (a, b) => a == b);
  }

  lemma UpperTwice(s: string)
    ensures Upper(Upper(s)) == Upper(s)
  {
  }

  lemma ComparedNamesAgree(a: string, b: string)
    requires CompareNodeNames(a, b)
    ensures Upper(a) == Upper(b)
  {
    UpperTwice(a);
    UpperTwice(b);
  }

  lemma {:induction false} ReachesItself(t: Tree, keep: Keep, alike: Alike)
    requires forall a :: alike(a, a)
    ensures Reaches(t, t, keep, alike)
    decreases t
  {
    forall k | k in t.kids ensures Reaches(k, k, keep, alike) {
      ReachesItself(k, keep, alike);
    }
  }

  lemma {:induction false} MorphReaches(f: Tree, t: Tree, hook: Hook, keep: Keep, alike: Alike)
    requires WellFormed(f) && WellFormed(t) && Plain(f) && Plain(t) && Fits(hook, keep, alike)
    requires f.kind == t.kind == ELEMENT_NODE && Upper(f.name) == Upper(t.name)
    ensures Reaches(Morph(f, t, hook), t, keep, alike) && WellFormed(Morph(f, t, hook))
    decreases t, 0, 0
  {
    MorphKidsReach(f.kids, t.kids, hook, keep, alike);
  }

  lemma {:induction false} MorphKidsReach(fs: seq<Tree>, ts: seq<Tree>, hook: Hook, keep: Keep, alike: Alike)
    requires (forall k | k in fs :: WellFormed(k)) && (forall k | k in ts :: WellFormed(k))
    requires AllPlain(fs) && AllPlain(ts) && Fits(hook, keep, alike)
    ensures var rs := MorphKids(fs, ts, hook);
            |rs| == |ts| && (forall k | k in rs :: WellFormed(k))
            && forall i | 0 <= i < |ts| :: Reaches(rs[i], ts[i], keep, alike)
    decreases ts, 1, |fs|
  {
    hide Fits;
    if ts != [] && fs == [] {
      forall t | t in ts ensures Reaches(t, t, keep, alike) {
        FitsItself(hook, keep, alike);
        ReachesItself(t, keep, alike);
      }
    } else if ts != [] && !Compatible(fs[0], ts[0]) {
      MorphKidsReach(fs[1..], ts, hook, keep, alike);
    } else if ts != [] {
      MorphChildReaches(fs[0], ts[0], hook, keep, alike);
      MorphKidsReach(fs[1..], ts[1..], hook, keep, alike);
      var rest := MorphKids(fs[1..], ts[1..], hook);
      assert MorphKids(fs, ts, hook) == [MorphChild(fs[0], ts[0], hook)] + rest;
      forall i | 0 <= i < |ts| ensures Reaches(MorphKids(fs, ts, hook)[i], ts[i], keep, alike) {
        if i > 0 {
          assert Reaches(rest[i - 1], ts[1..][i - 1], keep, alike);
        }
      }
    }
  }

  lemma FitsItself(hook: Hook, keep: Keep, alike: Alike)
    requires Fits(hook, keep, alike)
    ensures forall a :: alike(a, a)
  {
  }

  lemma {:induction false} MorphChildReaches(f: Tree, t: Tree, hook: Hook, keep: Keep, alike: Alike)
    requires WellFormed(f) && WellFormed(t) && Plain(f) && Plain(t) && Compatible(f, t) && Fits(hook, keep, alike)
    ensures Reaches(MorphChild(f, t, hook), t, keep, alike) && WellFormed(MorphChild(f, t, hook))
    decreases t, 1, 0
  {
    if t.kind == ELEMENT_NODE {
      ComparedNamesAgree(f.name, t.name);
      MorphReaches(f, t, hook, keep, alike);
    } else {
      FitsItself(hook, keep, alike);
    }
  }

  // What is kept or alike only where it is right already is right.
  lemma {:induction false} CarefulHookReachesTarget(r: Tree, t: Tree, keep: Keep, alike: Alike)
    requires (forall f, u :: keep(f, u) ==> Same(f, u)) && (forall a, b :: alike(a, b) ==> a == b)
    requires Reaches(r, t, keep, alike)
    ensures Same(r, t)
    decreases t
  {
    if !(t.kind == ELEMENT_NODE && keep(r, t)) {
      forall i | 0 <= i < |t.kids| ensures Same(r.kids[i], t.kids[i]) {
        CarefulHookReachesTarget(r.kids[i], t.kids[i], keep, alike);
      }
    }
  }

  // ---- The hook of the instant view ----

  // The words of a class attribute (classList).
  predicate IsSpace(c: char) {
    c == ' ' || c == '\t' || c == '\n' || c == '\r' || c as int == 12
  }

  function WordLength(s: string): (n: nat)
    ensures n <= |s| && (forall i :: 0 <= i < n ==> !IsSpace(s[i])) && (n < |s| ==> IsSpace(s[n]))
  {
    if s == "" || IsSpace(s[0]) then 0 else 1 + WordLength(s[1..])
  }

  function Words(s: string): seq<string>
    decreases |s|
  {
    if s == "" then []
    else if IsSpace(s[0]) then Words(s[1..])
    else [s[..WordLength(s)]] + Words(s[WordLength(s)..])
  }

  function WithoutRepeats(words: seq<string>): seq<string> {
    if words == [] then []
    else
      var rest, last := WithoutRepeats(words[..|words| - 1]), words[|words| - 1];
      if last in rest then rest else rest + [last]
  }

  function Joined(words: seq<string>): string {
    if words == [] then "" else if |words| == 1 then words[0] else words[0] + " " + Joined(words[1..])
  }

  // classList.add: the attribute becomes its words and the new one, each once, with single spaces.
  function WithWord(s: string, word: string): string {
    Joined(WithoutRepeats(Words(s) + [word]))
  }

  function ClassOf(attrs: map<string, string>): string {
    if "class" in attrs then attrs["class"] else ""
  }

  predicate HasClass(t: Tree, name: string) {
    name in Words(ClassOf(t.attrs))
  }

  predicate SameAttribute(f: Tree, t: Tree, name: string) {
    name in f.attrs && name in t.attrs && f.attrs[name] == t.attrs[name]
  }

  // A video or a channel that has the same source before and after is kept as it is.
  predicate SameMedia(f: Tree, t: Tree) {
    || (HasClass(f, "video") && HasClass(t, "video") && SameAttribute(f, t, "data-src"))
    || (f.name == "SECTION" && HasClass(f, "channel") && t.name == "SECTION" && HasClass(t, "channel")
        && SameAttribute(f, t, "data-context"))
  }

  // onBeforeElUpdated: the new element takes the class `loaded` over from the old one, and then the old one is
  // left alone if the two are equal nodes.
  function PageHook(f: Tree, t: Tree): Verdict {
    if SameMedia(f, t) then Verdict(true, None)
    else
      var newClass := if HasClass(f, "loaded") then Some(WithWord(ClassOf(t.attrs), "loaded")) else None;
      Verdict(f == t.(attrs := Classed(t.attrs, newClass)), newClass)
  }

  // The same attributes but that the class may also hold `loaded`.
  predicate AlikeButLoaded(a: map<string, string>, b: map<string, string>) {
    a == b || a == b["class" := WithWord(ClassOf(b), "loaded")]
  }

  // What an update of the page leaves is the new page, but for videos and channels of the same source, and for
  // the class `loaded`, which elements that were loaded keep.
  lemma PageIsUpdated(f: Tree, t: Tree)
    requires WellFormed(f) && WellFormed(t) && Plain(f) && Plain(t)
    ensures Reaches(MorphRoot(f, t, PageHook), t, SameMedia, AlikeButLoaded)
  {
    hide MorphRoot;
    PageHookFits();
    MorphRootReaches(f, t, PageHook, SameMedia, AlikeButLoaded);
  }

  lemma PageHookFits()
    ensures Fits(PageHook, SameMedia, AlikeButLoaded)
  {
    hide SameMedia, WithWord, HasClass;
    forall g, u | PageHook(g, u).leave ensures SameMedia(g, u) || Reaches(g, u, SameMedia, AlikeButLoaded) {
      if !SameMedia(g, u) {
        forall k | k in u.kids ensures Reaches(k, k, SameMedia, AlikeButLoaded) {
          ReachesItself(k, SameMedia, AlikeButLoaded);
        }
      }
    }
  }

  predicate IsWord(w: string) {
    w != "" && forall c | c in w :: !IsSpace(c)
  }

  lemma {:induction false} WordsAreWords(s: string)
    ensures forall w | w in Words(s) :: IsWord(w)
    decreases |s|
  {
    if s != "" {
      WordsAreWords(s[if IsSpace(s[0]) then 1 else WordLength(s)..]);
    }
  }

  lemma {:induction false} WordThenSpace(w: string, rest: string)
    requires (forall c | c in w :: !IsSpace(c)) && (rest == "" || IsSpace(rest[0]))
    ensures WordLength(w + rest) == |w|
  {
    if w != "" {
      assert (w + rest)[1..] == w[1..] + rest;
      WordThenSpace(w[1..], rest);
    } else {
      assert w + rest == rest;
    }
  }

  lemma {:induction false} WordsOfJoined(words: seq<string>)
    requires forall w | w in words :: IsWord(w)
    ensures Words(Joined(words)) == words
  {
    if words != [] {
      var w, rest := words[0], if |words| == 1 then "" else " " + Joined(words[1..]);
      assert w in words && Joined(words) == w + rest;
      WordThenSpace(w, rest);
      assert (w + rest)[0] == w[0] && (w + rest)[..|w|] == w && (w + rest)[|w|..] == rest;
      WordsOfJoined(words[1..]);
      assert |words| > 1 ==> rest[1..] == Joined(words[1..]) && Words(rest) == Words(rest[1..]);
    }
  }

  lemma {:induction false} NothingIsLost(words: seq<string>, w: string)
    ensures w in WithoutRepeats(words) <==> w in words
  {
    if words != [] {
      NothingIsLost(words[..|words| - 1], w);
    }
  }

  // Adding a class adds that word and no other.
  lemma WordIsAdded(s: string, word: string, w: string)
    requires IsWord(word)
    ensures w in Words(WithWord(s, word)) <==> w in Words(s) || w == word
  {
    var words := Words(s) + [word];
    WordsAreWords(s);
    forall v | v in WithoutRepeats(words) ensures IsWord(v) {
      NothingIsLost(words, v);
    }
    WordsOfJoined(WithoutRepeats(words));
    NothingIsLost(words, w);
  }

  // An updated element has the classes of the new page, and `loaded` if it was loaded before.
  lemma LoadedStays(f: Tree, t: Tree, name: string)
    requires !SameMedia(f, t)
    ensures HasClass(Morph(f, t, PageHook), name) <==> HasClass(t, name) || (name == "loaded" && HasClass(f, name))
  {
    hide MorphKids, WithWord, Words;
    WordIsAdded(ClassOf(t.attrs), "loaded", name);
  }

  lemma PhotoClasses()
    ensures Words("photo") == ["photo"] && Words("photo loaded") == ["photo", "loaded"]
    ensures WithWord("photo", "loaded") == "photo loaded"
  {
    hide Words;
    var photo, loaded := "photo", "loaded";
    WordsOfJoined([photo]);
    WordsOfJoined([photo, loaded]);
    assert [photo, loaded][1..] == [loaded] && Joined([photo, loaded]) == "photo loaded";
    assert [photo] + [loaded] == [photo, loaded] && [photo, loaded][..1] == [photo] && [photo][..0] == [];
    assert WithoutRepeats([photo]) == [photo];
  }

  // So a photo that was loaded is not the new page's.
  lemma LoadedPhotoIsKept()
    ensures var f := Tree(ELEMENT_NODE, "DIV", map["class" := "photo loaded"], "", []);
            var t := f.(attrs := map["class" := "photo"]);
            WellFormed(f) && WellFormed(t) && Plain(f) && Plain(t)
            && MorphRoot(f, t, PageHook) == f && !Same(f, t)
  {
    hide Words, WithWord;
    PhotoClasses();
    var f := Tree(ELEMENT_NODE, "DIV", map["class" := "photo loaded"], "", []);
    var t := f.(attrs := map["class" := "photo"]);
    assert f.attrs["class"] != t.attrs["class"];
    assert f.attrs == t.attrs["class" := "photo loaded"];
    assert HasClass(f, "loaded") && !SameMedia(f, t);
  }

  // ---- Which old children are kept ----

  // The same kind of node under the same name; and nodes that no case of letters makes so.
  predicate Like(f: Tree, t: Tree) {
    f.kind == t.kind && f.name == t.name
  }

  predicate Unlike(f: Tree, t: Tree) {
    f.kind != t.kind || (f.kind == ELEMENT_NODE && Upper(f.name) != Upper(t.name))
  }

  predicate IsNode(t: Tree) {
    t.kind == ELEMENT_NODE || t.kind == TEXT_NODE || t.kind == COMMENT_NODE
  }

  // The first old child that is like the first new one is kept for it, and those before it go.
  lemma {:induction false} FirstLikeChildIsKept(fs: seq<Tree>, ts: seq<Tree>, hook: Hook, k: nat)
    requires ts != [] && k < |fs| && Like(fs[k], ts[0]) && IsNode(ts[0])
    requires forall i :: 0 <= i < k ==> Unlike(fs[i], ts[0])
    ensures MorphKids(fs, ts, hook)
            == [if ts[0].kind == ELEMENT_NODE then Morph(fs[k], ts[0], hook) else fs[k].(value := ts[0].value)]
               + MorphKids(fs[k + 1..], ts[1..], hook)
    decreases k
  {
    if k > 0 {
      UnlikeIsDropped(fs[0], ts[0]);
      FirstLikeChildIsKept(fs[1..], ts, hook, k - 1);
      assert fs[1..][k..] == fs[k + 1..];
    }
  }

  lemma UnlikeIsDropped(f: Tree, t: Tree)
    requires Unlike(f, t)
    ensures !Compatible(f, t)
  {
    if CompareNodeNames(f.name, t.name) {
      ComparedNamesAgree(f.name, t.name);
    }
  }

  // With no old child like it, the new children are taken as they are.
  lemma {:induction false} NewChildrenAreTaken(fs: seq<Tree>, ts: seq<Tree>, hook: Hook)
    requires ts != [] && forall f | f in fs :: Unlike(f, ts[0])
    ensures MorphKids(fs, ts, hook) == ts
    decreases |fs|
  {
    if fs != [] {
      UnlikeIsDropped(fs[0], ts[0]);
      NewChildrenAreTaken(fs[1..], ts, hook);
    }
  }

  // Names that differ in case alone are one name when one of them is in capitals and the other is not at its start.
  lemma NamesOfOtherCaseMatch(a: string, b: string)
    requires Upper(a) == Upper(b) && a != "" && 'A' <= Upper(a)[0] <= 'Z'
    ensures CompareNodeNames(a, b) <==> a == b || (a == Upper(a) && 'a' <= b[0]) || (b == Upper(b) && 'a' <= a[0])
  {
    UpperTwice(a);
  }

  // ---- What stays, at every depth ----

  predicate PlaceByPlace(fs: seq<Tree>, ts: seq<Tree>) {
    |fs| == |ts| && forall i :: 0 <= i < |fs| ==> Like(fs[i], ts[i]) && IsNode(ts[i])
  }

  lemma {:induction false} MatchedPlaceByPlace(fs: seq<Tree>, ts: seq<Tree>, hook: Hook, i: nat)
    requires PlaceByPlace(fs, ts) && i < |ts|
    ensures |MorphKids(fs, ts, hook)| == |ts|
    ensures MorphKids(fs, ts, hook)[i]
            == if ts[i].kind == ELEMENT_NODE then Morph(fs[i], ts[i], hook) else fs[i].(value := ts[i].value)
    decreases |ts|
  {
    FirstLikeChildIsKept(fs, ts, hook, 0);
    if |ts| > 1 {
      MatchedPlaceByPlace(fs[1..], ts[1..], hook, if i > 0 then i - 1 else 0);
    } else {
      assert fs[1..] == [] && ts[1..] == [];
    }
  }

  // The subtree that child numbers lead to.
  predicate HasPlace(t: Tree, path: seq<nat>)
    decreases |path|
  {
    path == [] || (path[0] < |t.kids| && HasPlace(t.kids[path[0]], path[1..]))
  }

  function At(t: Tree, path: seq<nat>): Tree
    requires HasPlace(t, path)
    decreases |path|
  {
    if path == [] then t else At(t.kids[path[0]], path[1..])
  }

  // On the way there the two trees have the same elements place by place.
  predicate MatchAlong(f: Tree, t: Tree, path: seq<nat>)
    decreases |path|
  {
    f.kind == t.kind == ELEMENT_NODE && f.name == t.name
    && (path == [] || (path[0] < |t.kids| && PlaceByPlace(f.kids, t.kids)
                       && MatchAlong(f.kids[path[0]], t.kids[path[0]], path[1..])))
  }

  // An element the hook leaves alone stays; any other takes the new attributes, with the class the hook gave.
  lemma HookDecides(f: Tree, t: Tree, hook: Hook)
    ensures hook(f, t).leave ==> Morph(f, t, hook) == f
    ensures !hook(f, t).leave ==>
              var r := Morph(f, t, hook);
              && r.kind == f.kind && r.name == f.name && r.value == f.value && r.kids == MorphKids(f.kids, t.kids, hook)
              && r.attrs == if hook(f, t).newClass.Some? then t.attrs["class" := hook(f, t).newClass.value] else t.attrs
  {
  }

  // At the root the old element is updated if it is like the new one; under another name its children still are.
  lemma RootIsUpdated(f: Tree, t: Tree, hook: Hook)
    requires f.kind == t.kind == ELEMENT_NODE
    ensures Like(f, t) ==> MorphRoot(f, t, hook) == Morph(f, t, hook)
    ensures Unlike(f, t) && !hook(Tree(ELEMENT_NODE, t.name, map[], "", f.kids), t).leave ==>
              MorphRoot(f, t, hook).kids == MorphKids(f.kids, t.kids, hook)
  {
    if Unlike(f, t) {
      UnlikeIsDropped(f, t);
    }
  }

  // Wherever it is, a video or a channel of the same source stays as it is, and what was loaded stays loaded.
  lemma {:induction false} MediaStay(f: Tree, t: Tree, path: seq<nat>)
    requires MatchAlong(f, t, path)
    ensures HasPlace(f, path) && HasPlace(t, path) && HasPlace(MorphRoot(f, t, PageHook), path)
    ensures var was, now := At(f, path), At(MorphRoot(f, t, PageHook), path);
            (SameMedia(was, At(t, path)) ==> now == was)
            && (HasClass(was, "loaded") ==> HasClass(now, "loaded"))
    decreases |path|
  {
    hide SameMedia, HasClass;
    RootIsUpdated(f, t, PageHook);
    if path == [] {
      LoadedHere(f, t);
    } else {
      MatchedPlaceByPlace(f.kids, t.kids, PageHook, path[0]);
      MediaStay(f.kids[path[0]], t.kids[path[0]], path[1..]);
    }
  }

  lemma LoadedHere(f: Tree, t: Tree)
    ensures SameMedia(f, t) ==> Morph(f, t, PageHook) == f
    ensures HasClass(f, "loaded") ==> HasClass(Morph(f, t, PageHook), "loaded")
  {
    hide MorphKids;
    if !SameMedia(f, t) {
      LoadedStays(f, t, "loaded");
    }
  }
}

// The DOM as objects, and morphdom working on them in place.
module Morphdom {
  import opened Options
  import opened DomTree

  datatype Attr = Attr(name: string, value: string)

  class Node {
    const kind: int
    const name: string
    var attrs: seq<Attr>   // attributes
    var value: string      // nodeValue
    var kids: seq<Node>    // childNodes

    constructor (kind: int, name: string)
      ensures this.kind == kind && this.name == name && attrs == [] && value == "" && kids == []
    {
      this.kind, this.name, attrs, value, kids := kind, name, [], "", [];
    }
  }

  // ---- Attributes ----

  predicate DistinctNames(attrs: seq<Attr>) {
    forall i, j :: 0 <= i < j < |attrs| ==> attrs[i].name != attrs[j].name
  }

  function AttrMap(attrs: seq<Attr>): map<string, string> {
    if attrs == [] then map[] else AttrMap(attrs[1..])[attrs[0].name := attrs[0].value]
  }

  lemma {:induction false} AttrMapContents(attrs: seq<Attr>)
    requires DistinctNames(attrs)
    ensures forall n, v :: (n in AttrMap(attrs) && AttrMap(attrs)[n] == v) <==> Attr(n, v) in attrs
  {
    if attrs != [] {
      AttrMapContents(attrs[1..]);
      assert forall n, v :: Attr(n, v) in attrs <==> Attr(n, v) == attrs[0] || Attr(n, v) in attrs[1..];
    }
  }

  lemma SameAttrMap(a: seq<Attr>, b: seq<Attr>)
    requires DistinctNames(a) && DistinctNames(b)
    requires forall x :: x in a <==> x in b
    ensures AttrMap(a) == AttrMap(b)
  {
    AttrMapContents(a);
    AttrMapContents(b);
    forall n ensures n in AttrMap(a) <==> n in AttrMap(b) {
      assert n in AttrMap(a) ==> Attr(n, AttrMap(a)[n]) in b;
      assert n in AttrMap(b) ==> Attr(n, AttrMap(b)[n]) in a;
    }
    forall n | n in AttrMap(a) ensures AttrMap(a)[n] == AttrMap(b)[n] {
      assert Attr(n, AttrMap(a)[n]) in b;
    }
  }

  // The position of the attribute with the given name, or the number of attributes.
  function AttrIndex(attrs: seq<Attr>, name: string): (i: nat)
    ensures i <= |attrs| && (i < |attrs| ==> attrs[i].name == name)
    ensures forall j :: 0 <= j < i ==> attrs[j].name != name
  {
    if attrs == [] || attrs[0].name == name then 0 else 1 + AttrIndex(attrs[1..], name)
  }

  method SetAttribute(node: Node, name: string, value: string)
    requires DistinctNames(node.attrs)
    modifies node`attrs
    ensures DistinctNames(node.attrs)
    ensures forall a :: a in node.attrs <==> a == Attr(name, value) || (a in old(node.attrs) && a.name != name)
  {
    var k := AttrIndex(node.attrs, name);
    if k < |node.attrs| {
      node.attrs := node.attrs[k := Attr(name, value)];
      assert node.attrs[k] == Attr(name, value);
      forall a | a in old(node.attrs) && a.name != name ensures a in node.attrs {
        var j :| 0 <= j < |old(node.attrs)| && old(node.attrs)[j] == a;
        assert node.attrs[j] == a;
      }
    } else {
      node.attrs := node.attrs + [Attr(name, value)];
    }
  }

  lemma SetInAttrMap(was: seq<Attr>, now: seq<Attr>, name: string, value: string)
    requires DistinctNames(was) && DistinctNames(now)
    requires forall a :: a in now <==> a == Attr(name, value) || (a in was && a.name != name)
    ensures AttrMap(now) == AttrMap(was)[name := value]
  {
    AttrMapContents(was);
    AttrMapContents(now);
    var m, n := AttrMap(was)[name := value], AttrMap(now);
    forall k ensures k in m <==> k in n {
      assert k in n ==> Attr(k, n[k]) in now;
      assert k in m ==> Attr(k, m[k]) in now;
    }
    forall k | k in m ensures m[k] == n[k] {
      assert Attr(k, m[k]) in now;
    }
  }

  method MorphAttrs(fromNode: Node, toNode: Node)
    requires fromNode != toNode
    requires DistinctNames(fromNode.attrs) && DistinctNames(toNode.attrs)
    modifies fromNode`attrs
    ensures DistinctNames(fromNode.attrs) && AttrMap(fromNode.attrs) == AttrMap(toNode.attrs)
  {
    var i := |toNode.attrs| - 1;
    while i >= 0
      invariant -1 <= i < |toNode.attrs|
      invariant DistinctNames(fromNode.attrs)
      invariant forall j :: i < j < |toNode.attrs| ==> toNode.attrs[j] in fromNode.attrs
    {
      var attr := toNode.attrs[i];
      var k := AttrIndex(fromNode.attrs, attr.name);
      if k == |fromNode.attrs| || fromNode.attrs[k].value != attr.value {
        SetAttribute(fromNode, attr.name, attr.value);
      }
      i := i - 1;
    }
    var d := |fromNode.attrs| - 1;
    while d >= 0
      invariant -1 <= d < |fromNode.attrs|
      invariant DistinctNames(fromNode.attrs)
      invariant forall a :: a in toNode.attrs ==> a in fromNode.attrs
      invariant forall j :: d < j < |fromNode.attrs| ==> fromNode.attrs[j] in toNode.attrs
    {
      ghost var was := fromNode.attrs;
      var k := AttrIndex(toNode.attrs, fromNode.attrs[d].name);
      if k == |toNode.attrs| {
        fromNode.attrs := fromNode.attrs[..d] + fromNode.attrs[d + 1..];
        assert forall a :: a in was ==> a == was[d] || a in fromNode.attrs;
      } else {
        assert toNode.attrs[k] in was;
      }
      d := d - 1;
    }
    SameAttrMap(fromNode.attrs, toNode.attrs);
  }

  // ---- Subtrees ----

  // The nodes of a subtree and how they hang together, as a value: what a proof knows of the heap.
  datatype Shape = Shape(node: Node, kids: seq<Shape>)

  ghost function Nodes(s: Shape): set<Node>
    decreases s, 0
  {
    {s.node} + NodesOfAll(s.kids)
  }

  ghost function NodesOfAll(ss: seq<Shape>): set<Node>
    decreases ss
  {
    if ss == [] then {} else Nodes(ss[0]) + NodesOfAll(ss[1..])
  }

  ghost function Roots(ss: seq<Shape>): (ns: seq<Node>)
    ensures |ns| == |ss|
  {
    if ss == [] then [] else [ss[0].node] + Roots(ss[1..])
  }

  // The heap has exactly this subtree: no node occurs twice, no attribute name occurs twice.
  ghost predicate Holds(s: Shape)
    reads Nodes(s)
    decreases s, 0
  {
    DistinctNames(s.node.attrs) && s.node.kids == Roots(s.kids)
    && s.node !in NodesOfAll(s.kids) && HoldsAll(s.kids)
  }

  ghost predicate HoldsAll(ss: seq<Shape>)
    reads NodesOfAll(ss)
    decreases ss
  {
    ss == [] || (Holds(ss[0]) && HoldsAll(ss[1..]) && Nodes(ss[0]) !! NodesOfAll(ss[1..]))
  }

  // The tree that a subtree of the DOM shows.
  ghost function Val(s: Shape): Tree
    reads Nodes(s)
    decreases s, 0
  {
    Tree(s.node.kind, s.node.name, AttrMap(s.node.attrs), s.node.value, Vals(s.kids))
  }

  ghost function Vals(ss: seq<Shape>): (ts: seq<Tree>)
    reads NodesOfAll(ss)
    ensures |ts| == |ss|
    decreases ss
  {
    if ss == [] then [] else [Val(ss[0])] + Vals(ss[1..])
  }

  lemma {:induction false} AppendShape(ss: seq<Shape>, s: Shape)
    requires HoldsAll(ss) && Holds(s) && NodesOfAll(ss) !! Nodes(s)
    ensures HoldsAll(ss + [s])
    ensures NodesOfAll(ss + [s]) == NodesOfAll(ss) + Nodes(s)
    ensures Roots(ss + [s]) == Roots(ss) + [s.node]
    ensures Vals(ss + [s]) == Vals(ss) + [Val(s)]
  {
    if ss == [] {
      assert ss + [s] == [s] && [s][1..] == [];
    } else {
      AppendShape(ss[1..], s);
      assert (ss + [s])[0] == ss[0] && (ss + [s])[1..] == ss[1..] + [s];
      assert Nodes(ss[0]) !! NodesOfAll(ss[1..] + [s]);
    }
  }

  lemma {:induction false} SplitRoots(ss: seq<Shape>, i: nat)
    requires i < |ss|
    ensures Roots(ss)[i] == ss[i].node
  {
    if i > 0 {
      SplitRoots(ss[1..], i - 1);
    }
  }

  // What a hook sees of an element: the subtree below it, read node by node.
  function Snapshot(node: Node, ghost s: Shape): (t: Tree)
    requires Holds(s) && s.node == node
    reads Nodes(s)
    ensures t == Val(s)
    decreases s, 0
  {
    Tree(node.kind, node.name, AttrMap(node.attrs), node.value, SnapshotAll(node.kids, s.kids))
  }

  function SnapshotAll(nodes: seq<Node>, ghost ss: seq<Shape>): (ts: seq<Tree>)
    requires HoldsAll(ss) && nodes == Roots(ss)
    reads NodesOfAll(ss)
    ensures ts == Vals(ss)
    decreases ss
  {
    if nodes == [] then [] else [Snapshot(nodes[0], ss[0])] + SnapshotAll(nodes[1..], ss[1..])
  }

  predicate CompatibleNodes(f: Node, t: Node) {
    f.kind == t.kind
    && (if f.kind == ELEMENT_NODE then CompareNodeNames(f.name, t.name) else IsCharacterData(f.kind))
  }

  method MorphEl(fromEl: Node, toEl: Node, hook: Hook,
      ghost fs: Shape, ghost ts: Shape, ghost all: set<Node>) returns (ghost rs: Shape)
    requires Holds(fs) && Holds(ts) && fs.node == fromEl && ts.node == toEl && Nodes(fs) !! Nodes(ts)
    requires Nodes(fs) + Nodes(ts) <= all
    requires Plain(Val(fs)) && Plain(Val(ts))
    modifies Nodes(fs), Nodes(ts)
    ensures Holds(rs) && rs.node == fromEl && Nodes(rs) <= Nodes(fs) + Nodes(ts)
    ensures Val(rs) == Morph(old(Val(fs)), old(Val(ts)), hook)
    decreases ts, 1
  {
    var verdict := hook(Snapshot(fromEl, fs), Snapshot(toEl, ts));
    if verdict.newClass.Some? {
      ghost var was := toEl.attrs;
      SetAttribute(toEl, "class", verdict.newClass.value);
      SetInAttrMap(was, toEl.attrs, "class", verdict.newClass.value);
    }
    if verdict.leave {
      return fs;
    }
    MorphAttrs(fromEl, toEl);
    rs := MorphChildren(fromEl, toEl, hook, fs, ts, all);
  }

  method MorphChildNode(curFrom: Node, curTo: Node, hook: Hook,
      ghost f: Shape, ghost t: Shape, ghost all: set<Node>) returns (ghost r: Shape)
    requires Holds(f) && Holds(t) && f.node == curFrom && t.node == curTo && Nodes(f) !! Nodes(t)
    requires Nodes(f) + Nodes(t) <= all && curFrom.kind == curTo.kind
    requires Plain(Val(f)) && Plain(Val(t))
    modifies Nodes(f), Nodes(t)
    ensures Holds(r) && r.node == curFrom && Nodes(r) <= Nodes(f) + Nodes(t)
    ensures Val(r) == MorphChild(old(Val(f)), old(Val(t)), hook)
    decreases t, 2
  {
    if curFrom.kind == ELEMENT_NODE {
      r := MorphEl(curFrom, curTo, hook, f, t, all);
    } else {
      curFrom.value := curTo.value;
      r := f;
    }
  }

  lemma FirstShape(ss: seq<Shape>)
    requires ss != []
    ensures Nodes(ss[0]) + NodesOfAll(ss[1..]) == NodesOfAll(ss)
    ensures [ss[0].node] + Roots(ss[1..]) == Roots(ss)
    ensures HoldsAll(ss) ==> Holds(ss[0]) && HoldsAll(ss[1..]) && Nodes(ss[0]) !! NodesOfAll(ss[1..])
  {
  }

  lemma FirstPlain(ss: seq<Shape>)
    requires ss != [] && AllPlain(Vals(ss))
    ensures Plain(Val(ss[0])) && AllPlain(Vals(ss[1..]))
  {
    assert Vals(ss)[0] == Val(ss[0]) && Vals(ss)[1..] == Vals(ss[1..]);
  }

  lemma NoShapes()
    ensures Vals([]) == [] && forall hook, ts :: MorphKids(ts, [], hook) == []
    ensures NodesOfAll([]) == {} && HoldsAll([]) && Roots([]) == []
  {
  }

  // The nodes that morphChildren ends with: the first compatible old child for each new one, and when the old
  // ones are used up, the new ones.
  ghost function KeptNodes(fs: seq<Shape>, ts: seq<Shape>): seq<Node>
    decreases ts, |fs|
  {
    if ts == [] then []
    else if fs == [] then Roots(ts)
    else if !CompatibleNodes(fs[0].node, ts[0].node) then KeptNodes(fs[1..], ts)
    else [fs[0].node] + KeptNodes(fs[1..], ts[1..])
  }

  predicate LikeNodes(f: Node, t: Node) {
    f.kind == t.kind && f.name == t.name && (f.kind == ELEMENT_NODE || f.kind == TEXT_NODE || f.kind == COMMENT_NODE)
  }

  // Place by place the old nodes themselves stay, with whatever the browser holds in them.
  lemma {:induction false} SameNodesStay(fs: seq<Shape>, ts: seq<Shape>)
    requires |fs| == |ts| && forall i :: 0 <= i < |fs| ==> LikeNodes(fs[i].node, ts[i].node)
    ensures KeptNodes(fs, ts) == Roots(fs)
    decreases |ts|
  {
    if ts != [] {
      assert LikeNodes(fs[0].node, ts[0].node);
      SameNodesStay(fs[1..], ts[1..]);
    }
  }

  lemma NoNodesKept(fs: seq<Shape>, ts: seq<Shape>)
    ensures KeptNodes(fs, []) == [] && KeptNodes([], ts) == Roots(ts)
  {
  }

  lemma JoinedNodes(a: seq<Node>, x: Node, b: seq<Node>)
    ensures a + [x] + b == a + ([x] + b)
  {
  }

  lemma FirstKept(fs: seq<Shape>, ts: seq<Shape>)
    requires fs != [] && ts != []
    ensures KeptNodes(fs, ts) == if CompatibleNodes(fs[0].node, ts[0].node) then [fs[0].node] + KeptNodes(fs[1..], ts[1..])
                                 else KeptNodes(fs[1..], ts)
  {
  }

  ghost function Region(done: seq<Shape>, oldRest: seq<Shape>, newRest: seq<Shape>): set<Node> {
    NodesOfAll(done) + NodesOfAll(oldRest) + NodesOfAll(newRest)
  }

  // The forests that morphChildren works on: finished children, old ones and new ones still to come.
  ghost predicate Apart(done: seq<Shape>, oldRest: seq<Shape>, newRest: seq<Shape>, fromEl: Node, toEl: Node)
    reads NodesOfAll(done) + NodesOfAll(oldRest) + NodesOfAll(newRest)
  {
    HoldsAll(done) && HoldsAll(oldRest) && HoldsAll(newRest)
    && NodesOfAll(done) !! NodesOfAll(oldRest) !! NodesOfAll(newRest) !! {fromEl} !! {toEl}
  }

  lemma ApartAtFirst(fs: Shape, ts: Shape)
    requires Holds(fs) && Holds(ts) && Nodes(fs) !! Nodes(ts)
    ensures Apart([], fs.kids, ts.kids, fs.node, ts.node)
    ensures fs.node.kids == Roots(fs.kids) && ts.node.kids == Roots(ts.kids)
    ensures {fs.node, ts.node} + Region([], fs.kids, ts.kids) == Nodes(fs) + Nodes(ts)
    ensures DistinctNames(fs.node.attrs)
  {
  }

  lemma ApartAtLast(done: seq<Shape>, oldRest: seq<Shape>, newRest: seq<Shape>, fromEl: Node, toEl: Node)
    requires Apart(done, oldRest, newRest, fromEl, toEl)
    ensures HoldsAll(done) && fromEl !in NodesOfAll(done)
    ensures NodesOfAll(done) <= Region(done, oldRest, newRest)
  {
  }

  lemma FinishedShape(el: Node, done: seq<Shape>)
    requires HoldsAll(done) && el !in NodesOfAll(done) && el.kids == Roots(done) && DistinctNames(el.attrs)
    ensures Holds(Shape(el, done)) && Nodes(Shape(el, done)) == {el} + NodesOfAll(done)
    ensures Val(Shape(el, done)) == Tree(el.kind, el.name, AttrMap(el.attrs), el.value, Vals(done))
  {
  }

  lemma DropFirst(done: seq<Shape>, oldRest: seq<Shape>, newRest: seq<Shape>, fromEl: Node, toEl: Node, hook: Hook)
    requires Apart(done, oldRest, newRest, fromEl, toEl) && oldRest != [] && newRest != []
    requires !CompatibleNodes(oldRest[0].node, newRest[0].node)
    ensures Apart(done, oldRest[1..], newRest, fromEl, toEl)
    ensures MorphKids(Vals(oldRest[1..]), Vals(newRest), hook) == MorphKids(Vals(oldRest), Vals(newRest), hook)
  {
    hide Morph, MorphChild, CompareNodeNames, AttrMap;
  }

  lemma KeepFirst(oldRest: seq<Shape>, newRest: seq<Shape>, hook: Hook)
    requires oldRest != [] && newRest != []
    requires CompatibleNodes(oldRest[0].node, newRest[0].node)
    ensures MorphKids(Vals(oldRest), Vals(newRest), hook)
         == [MorphChild(Val(oldRest[0]), Val(newRest[0]), hook)]
            + MorphKids(Vals(oldRest[1..]), Vals(newRest[1..]), hook)
  {
    hide Morph, MorphChild, CompareNodeNames, AttrMap;
  }

  // The inner loop of morphChildren: old children that do not fit the new child are removed.
  method DropIncompatible(fromEl: Node, toEl: Node, curTo: Node, i: nat, hook: Hook,
      ghost done: seq<Shape>, ghost oldRest: seq<Shape>, ghost newRest: seq<Shape>, ghost all: set<Node>)
    returns (ghost rest: seq<Shape>)
    requires Apart(done, oldRest, newRest, fromEl, toEl)
    requires fromEl.kids == Roots(done) + Roots(oldRest) && i == |done|
    requires newRest != [] && newRest[0].node == curTo
    requires {fromEl} + Region(done, oldRest, newRest) <= all
    requires AllPlain(Vals(oldRest)) && AllPlain(Vals(newRest))
    modifies fromEl`kids
    ensures Apart(done, rest, newRest, fromEl, toEl)
    ensures AllPlain(Vals(rest)) && AllPlain(Vals(newRest))
    ensures Region(done, rest, newRest) <= Region(done, oldRest, newRest)
    ensures fromEl.kids == Roots(done) + Roots(rest)
    ensures rest != [] ==> CompatibleNodes(rest[0].node, curTo)
    ensures KeptNodes(rest, newRest) == KeptNodes(oldRest, newRest)
    ensures Vals(done) + MorphKids(Vals(rest), Vals(newRest), hook)
         == old(Vals(done) + MorphKids(Vals(oldRest), Vals(newRest), hook))
  {
    hide HoldsAll, NodesOfAll, Roots, Vals, MorphKids, CompatibleNodes, KeptNodes;
    NoShapes();
    rest := oldRest;
    while i < |fromEl.kids| && !CompatibleNodes(fromEl.kids[i], curTo)
      invariant fromEl.kids == Roots(done) + Roots(rest)
      invariant Apart(done, rest, newRest, fromEl, toEl)
      invariant Region(done, rest, newRest) <= Region(done, oldRest, newRest)
      invariant Vals(done) == old(Vals(done))
      invariant KeptNodes(rest, newRest) == KeptNodes(oldRest, newRest)
      invariant AllPlain(Vals(rest)) && AllPlain(Vals(newRest))
      invariant MorphKids(Vals(rest), Vals(newRest), hook) == old(MorphKids(Vals(oldRest), Vals(newRest), hook))
      decreases |rest|
    {
      FirstShape(rest);
      FirstPlain(rest);
      FirstKept(rest, newRest);
      DropFirst(done, rest, newRest, fromEl, toEl, hook);
      fromEl.kids := fromEl.kids[..i] + fromEl.kids[i + 1..];
      rest := rest[1..];
    }
    if rest != [] {
      FirstShape(rest);
    }
  }

  // The first old child is morphed into the first new one, and joins the finished children.
  method KeepOldChild(fromEl: Node, toEl: Node, curFrom: Node, curTo: Node, hook: Hook,
      ghost done: seq<Shape>, ghost oldRest: seq<Shape>, ghost newRest: seq<Shape>, ghost all: set<Node>)
    returns (ghost r: Shape)
    requires Apart(done, oldRest, newRest, fromEl, toEl) && oldRest != [] && newRest != []
    requires oldRest[0].node == curFrom && newRest[0].node == curTo && CompatibleNodes(curFrom, curTo)
    requires {fromEl, toEl} + Region(done, oldRest, newRest) <= all
    requires AllPlain(Vals(oldRest)) && AllPlain(Vals(newRest))
    modifies Nodes(oldRest[0]), Nodes(newRest[0])
    ensures unchanged(fromEl) && unchanged(toEl)
    ensures Apart(done + [r], oldRest[1..], newRest[1..], fromEl, toEl)
    ensures Region(done + [r], oldRest[1..], newRest[1..]) <= Region(done, oldRest, newRest)
    ensures Nodes(oldRest[0]) + Nodes(newRest[0]) <= Region(done, oldRest, newRest)
    ensures Roots(done + [r]) == Roots(done) + [curFrom]
    ensures AllPlain(Vals(oldRest[1..])) && AllPlain(Vals(newRest[1..]))
    ensures Vals(done + [r]) + MorphKids(Vals(oldRest[1..]), Vals(newRest[1..]), hook)
         == old(Vals(done) + MorphKids(Vals(oldRest), Vals(newRest), hook))
    decreases newRest[0], 3
  {
    hide HoldsAll, NodesOfAll, Roots, Vals, MorphKids, MorphChild, CompareNodeNames, Holds, Val, Nodes;
    FirstShape(oldRest);
    FirstShape(newRest);
    FirstPlain(oldRest);
    FirstPlain(newRest);
    ghost var rest := MorphKids(Vals(oldRest[1..]), Vals(newRest[1..]), hook);
    KeepFirst(oldRest, newRest, hook);
    r := MorphChildNode(curFrom, curTo, hook, oldRest[0], newRest[0], all);
    AppendShape(done, r);
    assert MorphKids(Vals(oldRest[1..]), Vals(newRest[1..]), hook) == rest;
  }

  lemma NoOldLeft(ts: seq<Tree>, hook: Hook)
    ensures MorphKids([], ts, hook) == ts
  {
  }

  // With no old child left, the first new child moves from toEl to the end of fromEl.
  method AddNewChild(fromEl: Node, toEl: Node, curTo: Node, j: nat, hook: Hook,
      ghost done: seq<Shape>, ghost newRest: seq<Shape>, ghost all: set<Node>)
    requires Apart(done, [], newRest, fromEl, toEl) && newRest != []
    requires j < |toEl.kids| && toEl.kids[j] == curTo == newRest[0].node
    requires {fromEl, toEl} + Region(done, [], newRest) <= all
    requires AllPlain(Vals(newRest))
    modifies fromEl`kids, toEl`kids
    ensures AllPlain(Vals(newRest[1..]))
    ensures fromEl.kids == old(fromEl.kids) + [curTo]
    ensures toEl.kids == old(toEl.kids[..j] + toEl.kids[j + 1..])
    ensures Apart(done + [newRest[0]], [], newRest[1..], fromEl, toEl)
    ensures Region(done + [newRest[0]], [], newRest[1..]) == Region(done, [], newRest)
    ensures Roots(done + [newRest[0]]) == Roots(done) + [curTo]
    ensures Vals(done + [newRest[0]]) + MorphKids([], Vals(newRest[1..]), hook)
         == old(Vals(done) + MorphKids([], Vals(newRest), hook))
  {
    hide Plain, MorphKids, Vals, Val, HoldsAll, NodesOfAll, Nodes, Roots;
    FirstShape(newRest);
    FirstPlain(newRest);
    FirstVal(newRest);
    NoOldLeft(Vals(newRest), hook);
    ghost var shown, first, later := Vals(done), Val(newRest[0]), Vals(newRest[1..]);
    toEl.kids := toEl.kids[..j] + toEl.kids[j + 1..];
    fromEl.kids := fromEl.kids + [curTo];
    AppendShape(done, newRest[0]);
    assert Vals(done) == shown && Val(newRest[0]) == first && Vals(newRest[1..]) == later;
    NoOldLeft(later, hook);
    NoShapes();
  }

  lemma FirstVal(ss: seq<Shape>)
    requires ss != []
    ensures Vals(ss) == [Val(ss[0])] + Vals(ss[1..])
  {
  }

  // Old children for which no new child is left are removed.
  method CleanupFromEl(fromEl: Node, i: nat, ghost done: seq<Shape>, ghost oldRest: seq<Shape>)
    requires i == |done| && fromEl.kids == Roots(done) + Roots(oldRest) && AllPlain(Vals(oldRest))
    modifies fromEl`kids
    ensures fromEl.kids == Roots(done)
  {
    ghost var rest := oldRest;
    while i < |fromEl.kids|
      invariant fromEl.kids == Roots(done) + Roots(rest)
      decreases |rest|
    {
      fromEl.kids := fromEl.kids[..i] + fromEl.kids[i + 1..];
      rest := rest[1..];
    }
  }

  // One pass of the outer loop of morphChildren: the next child of toEl is dealt with.
  method TakeChild(fromEl: Node, toEl: Node, i: nat, j: nat, hook: Hook,
      ghost done: seq<Shape>, ghost oldRest: seq<Shape>, ghost newRest: seq<Shape>, ghost all: set<Node>)
    returns (moved: bool, ghost r: Shape, ghost rest: seq<Shape>)
    requires Apart(done, oldRest, newRest, fromEl, toEl) && newRest != []
    requires fromEl.kids == Roots(done) + Roots(oldRest) && i == |done|
    requires j < |toEl.kids| && toEl.kids[j] == newRest[0].node
    requires {fromEl, toEl} + Region(done, oldRest, newRest) <= all
    requires AllPlain(Vals(oldRest)) && AllPlain(Vals(newRest))
    modifies fromEl`kids, toEl`kids, Region(done, oldRest, newRest)
    ensures fromEl.attrs == old(fromEl.attrs) && fromEl.value == old(fromEl.value)
    ensures fromEl.kids == Roots(done + [r]) + Roots(rest)
    ensures toEl.kids == if moved then old(toEl.kids[..j] + toEl.kids[j + 1..]) else old(toEl.kids)
    ensures Apart(done + [r], rest, newRest[1..], fromEl, toEl)
    ensures AllPlain(Vals(rest)) && AllPlain(Vals(newRest[1..]))
    ensures Roots(done + [r]) + KeptNodes(rest, newRest[1..]) == Roots(done) + KeptNodes(oldRest, newRest)
    ensures Region(done + [r], rest, newRest[1..]) <= Region(done, oldRest, newRest)
    ensures Vals(done + [r]) + MorphKids(Vals(rest), Vals(newRest[1..]), hook)
         == old(Vals(done) + MorphKids(Vals(oldRest), Vals(newRest), hook))
    decreases newRest[0], 4
  {
    hide HoldsAll, Vals, NodesOfAll, Roots, MorphKids, MorphChild, Morph, CompatibleNodes, KeptNodes;
    NoShapes();
    FirstShape(newRest);
    var curTo := toEl.kids[j];
    r := newRest[0];
    rest := DropIncompatible(fromEl, toEl, curTo, i, hook, done, oldRest, newRest, all);
    if i < |fromEl.kids| {
      FirstShape(rest);
      FirstKept(rest, newRest);
      JoinedNodes(Roots(done), fromEl.kids[i], KeptNodes(rest[1..], newRest[1..]));
      r := KeepOldChild(fromEl, toEl, fromEl.kids[i], curTo, hook, done, rest, newRest, all);
      rest := rest[1..];
      moved := false;
    } else {
      NoNodesKept([], newRest);
      NoNodesKept([], newRest[1..]);
      JoinedNodes(Roots(done), curTo, Roots(newRest[1..]));
      AddNewChild(fromEl, toEl, curTo, j, hook, done, newRest, all);
      moved := true;
    }
  }

  method MorphChildren(fromEl: Node, toEl: Node, hook: Hook,
      ghost fs: Shape, ghost ts: Shape, ghost all: set<Node>) returns (ghost rs: Shape)
    requires Holds(fs) && Holds(ts) && fs.node == fromEl && ts.node == toEl && Nodes(fs) !! Nodes(ts)
    requires Nodes(fs) + Nodes(ts) <= all
    requires !IsFormElement(fromEl.name) && AllPlain(Vals(fs.kids)) && AllPlain(Vals(ts.kids))
    modifies Nodes(fs), Nodes(ts)
    ensures Holds(rs) && rs.node == fromEl && Nodes(rs) <= Nodes(fs) + Nodes(ts)
    ensures fromEl.kids == KeptNodes(fs.kids, ts.kids)
    ensures Val(rs) == Tree(fromEl.kind, fromEl.name, AttrMap(old(fromEl.attrs)), old(fromEl.value),
                            old(MorphKids(Vals(fs.kids), Vals(ts.kids), hook)))
    decreases ts, 0
  {
    hide Region, Apart, Holds, HoldsAll, Val, Vals, Nodes, NodesOfAll, Roots, MorphKids, AttrMap, KeptNodes;
    NoShapes();
    ApartAtFirst(fs, ts);
    ghost var done: seq<Shape>, oldRest, newRest, m := [], fs.kids, ts.kids, 0;
    ghost var kept: seq<Node> := [];
    ghost var target := MorphKids(Vals(fs.kids), Vals(ts.kids), hook);
    ghost var mine := Nodes(fs) + Nodes(ts);
    var i, j := 0, 0;   // the positions of curFromNodeChild and curToNodeChild
    while j < |toEl.kids|
      invariant i == |done| && j == |kept| && m <= |ts.kids| && newRest == ts.kids[m..]
      invariant fromEl.kids == Roots(done) + Roots(oldRest) && toEl.kids == kept + Roots(newRest)
      invariant Apart(done, oldRest, newRest, fromEl, toEl)
      invariant AllPlain(Vals(oldRest)) && AllPlain(Vals(newRest))
      invariant Roots(done) + KeptNodes(oldRest, newRest) == KeptNodes(fs.kids, ts.kids)
      invariant {fromEl, toEl} + Region(done, oldRest, newRest) <= mine
      invariant target == Vals(done) + MorphKids(Vals(oldRest), Vals(newRest), hook)
      invariant fromEl.attrs == old(fromEl.attrs) && fromEl.value == old(fromEl.value)
      decreases |newRest|
    {
      FirstShape(newRest);
      assert toEl.kids == kept + [toEl.kids[j]] + Roots(newRest[1..]);
      assert newRest[1..] == ts.kids[m + 1..];
      var moved;
      ghost var r;
      moved, r, oldRest := TakeChild(fromEl, toEl, i, j, hook, done, oldRest, newRest, all);
      assert moved ==> toEl.kids == kept + Roots(newRest[1..]);
      if !moved {
        kept := kept + [toEl.kids[j]];
        j := j + 1;
      }
      done, newRest, m := done + [r], newRest[1..], m + 1;
      i := i + 1;
    }
    ApartAtLast(done, oldRest, newRest, fromEl, toEl);
    NoNodesKept(oldRest, newRest);
    CleanupFromEl(fromEl, i, done, oldRest);
    rs := Shape(fromEl, done);
    FinishedShape(fromEl, done);
  }

  // ---- The root ----

  method MoveChildren(fromEl: Node, toEl: Node)
    requires fromEl != toEl
    modifies fromEl`kids, toEl`kids
    ensures fromEl.kids == [] && toEl.kids == old(toEl.kids + fromEl.kids)
  {
    while fromEl.kids != []
      invariant toEl.kids + fromEl.kids == old(toEl.kids + fromEl.kids)
      decreases |fromEl.kids|
    {
      var curChild := fromEl.kids[0];
      fromEl.kids := fromEl.kids[1..];
      toEl.kids := toEl.kids + [curChild];
    }
  }

  // moveChildren(fromNode, createElementNS(...)): a new element of the right name takes the children over.
  method ReplaceElement(fromNode: Node, name: string, ghost fs: Shape, ghost all: set<Node>)
    returns (el: Node, ghost rs: Shape)
    requires Holds(fs) && fs.node == fromNode && Nodes(fs) <= all
    modifies fromNode`kids
    ensures fresh(el) && rs.node == el && Holds(rs) && Nodes(rs) <= {el} + Nodes(fs)
    ensures Val(rs) == Tree(ELEMENT_NODE, name, map[], "", old(Vals(fs.kids)))
  {
    el := new Node(ELEMENT_NODE, name);
    MoveChildren(fromNode, el);
    rs := Shape(el, fs.kids);
    assert el !in all;
  }

  // fromNode is child number `at` of parent, when it has a parent.
  method MorphDom(fromNode: Node, toNode: Node, parent: Node?, at: nat, hook: Hook,
      ghost fs: Shape, ghost ts: Shape, ghost all: set<Node>) returns (morphed: Node, ghost rs: Shape)
    requires Holds(fs) && Holds(ts) && fs.node == fromNode && ts.node == toNode && Nodes(fs) !! Nodes(ts)
    requires Nodes(fs) + Nodes(ts) <= all
    requires fromNode.kind == ELEMENT_NODE || IsCharacterData(fromNode.kind)
    requires parent != null ==>
               parent !in Nodes(fs) + Nodes(ts) && at < |parent.kids| && parent.kids[at] == fromNode
    requires Plain(Val(fs)) && Plain(Val(ts))
    modifies Nodes(fs), Nodes(ts), parent
    ensures Holds(rs) && rs.node == morphed
    ensures Val(rs) == old(MorphRoot(Val(fs), Val(ts), hook))
    ensures parent != null ==> parent.kids == old(parent.kids[at := morphed])
  {
    hide HoldsAll, Vals, NodesOfAll, Morph, CompareNodeNames;
    morphed, rs := fromNode, fs;
    if fromNode.kind == ELEMENT_NODE {
      if toNode.kind == ELEMENT_NODE {
        if !CompareNodeNames(fromNode.name, toNode.name) {
          morphed, rs := ReplaceElement(fromNode, toNode.name, fs, all);
        }
        rs := MorphEl(morphed, toNode, hook, rs, ts, all + {morphed});
      } else {
        morphed, rs := toNode, ts;
      }
    } else if toNode.kind == fromNode.kind {
      fromNode.value := toNode.value;
      return;
    } else {
      morphed, rs := toNode, ts;
    }
    if parent != null && morphed != fromNode {
      parent.kids := parent.kids[at := morphed];
    }
  }
}
