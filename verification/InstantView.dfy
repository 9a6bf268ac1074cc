// The page cache of the instant view (page.js): pages are loaded, reloaded in the background, shown, and
// left, and a page's DOM is brought up to date when its content has changed.
module InstantView {
  import opened Options

  // The text of a page; a page-scroll element.
  type Content = nat
  type Dom = nat

  // One cache entry, as the fields of IV.cache[index] are set.
  datatype Entry = Entry(
    loading: bool, content: Option<Content>, dom: Option<Dom>, contentUpdated: bool, reloadPending: bool)

  const EMPTY := Entry(false, None, None, false, false)

  // A request for a page under way, and the reply that a page's content came from.
  datatype Load = Load(index: nat)
  datatype Reply = Reply(id: nat, content: Content)

  // IV's fields; what each page-scroll element shows, and which one is on screen; the requests under way;
  // the indices that browser history leads to; and, for each page, the reply its content came from and
  // the last request sent before its last reloadPage call.
  datatype State = State(
    cache: map<nat, Entry>, index: nat, pending: Option<nat>,
    shown: map<Dom, Content>, screen: Dom,
    lastId: nat, inFlight: map<nat, Load>, history: set<nat>,
    contentFrom: map<nat, Reply>, reloadCalled: map<nat, nat>)

  datatype Event =
    | NavigateTo(index: nat)
    | ReloadPage(index: nat)
    | Loaded(id: nat, content: Content)
    | LoadFailed(id: nat)   // no handler
    | PopState(index: nat)

  // Page 0 comes with the document, under DOM number 0.
  function Initial(html: Content): State {
    State(map[], 0, None, map[0 := html], 0, 0, map[], {0}, map[], map[])
  }

  predicate Possible(s: State, e: Event) {
    match e
    case Loaded(id, _) => id in s.inFlight
    case LoadFailed(id) => id in s.inFlight
    case PopState(index) => index in s.history
    case _ => true
  }

  function EntryAt(s: State, index: nat): Entry {
    if index in s.cache then s.cache[index] else EMPTY
  }

  // loadPage
  function LoadSent(s: State, index: nat): State {
    var id := s.lastId + 1;
    s.(cache := s.cache[index := EntryAt(s, index).(loading := true)],
       lastId := id, inFlight := s.inFlight[id := Load(index)])
  }

  // reloadPage, but for the note that it was called
  function Reloaded(s: State, index: nat): State {
    if index in s.cache && s.cache[index].loading then
      s.(cache := s.cache[index := s.cache[index].(reloadPending := true)])
    else LoadSent(s, index)
  }

  // The morph of the element on screen towards the page's content.
  function Morphed(s: State, index: nat): State {
    match EntryAt(s, index).content
    case Some(content) => s.(shown := s.shown[s.screen := content])
    case None => s
  }

  // applyUpdatedContent
  function ContentApplied(s: State, index: nat): State {
    if s.index != index then
      s.(cache := s.cache[index := EntryAt(s, index).(contentUpdated := EntryAt(s, index).dom.Some?)])
    else Morphed(s, index)
  }

  // The end of showDOM: the page on screen is brought up to date if it is marked so.
  function UpdateApplied(s: State): State {
    if EntryAt(s, s.index).contentUpdated then
      ContentApplied(s.(cache := s.cache[s.index := EntryAt(s, s.index).(contentUpdated := false)]), s.index)
    else s
  }

  // showDOM. A page without an element makes appendChild fail, after the element on screen was stored.
  function DomShown(s: State, index: nat): State {
    var t := s.(pending := None);
    if s.index == index then t
    else
      var u := t.(cache := s.cache[s.index := EntryAt(s, s.index).(dom := Some(s.screen))]);
      match EntryAt(s, index).dom
      case None => u
      case Some(now) => UpdateApplied(u.(screen := now, index := index, history := s.history + {index}))
  }

  // navigateToDOM
  function DomNavigated(s: State, index: nat): State {
    if s.index == index then s.(pending := None) else DomShown(s, index)
  }

  function FreshDom(s: State): Dom {
    |s.shown|
  }

  // navigateToLoaded, for a page with content
  function LoadedNavigated(s: State, index: nat): State {
    if EntryAt(s, index).dom.Some? || EntryAt(s, index).content.None? then DomNavigated(s, index)
    else
      var dom := FreshDom(s);
      DomNavigated(s.(cache := s.cache[index := EntryAt(s, index).(dom := Some(dom))],
                      shown := s.shown[dom := EntryAt(s, index).content.value]),
                   index)
  }

  // The start of onload: the content is stored and applied.
  function ReplyStored(s: State, id: nat, content: Content): State
    requires id in s.inFlight
  {
    var index := s.inFlight[id].index;
    s.(inFlight := s.inFlight - {id}, contentFrom := s.contentFrom[index := Reply(id, content)],
       cache := s.cache[index := EntryAt(s, index).(loading := false, content := Some(content))])
  }

  function ContentTaken(s: State, id: nat, content: Content): State
    requires id in s.inFlight
  {
    ContentApplied(ReplyStored(s, id, content), s.inFlight[id].index)
  }

  // The end of onload: a reload asked for during the load.
  function ReloadTaken(s: State, index: nat): State {
    if EntryAt(s, index).reloadPending then
      Reloaded(s.(cache := s.cache[index := EntryAt(s, index).(reloadPending := false)]), index)
    else s
  }

  function Step(s: State, e: Event): State
    requires Possible(s, e)
  {
    match e
    case NavigateTo(index) =>
      if index == 0 && s.index == 0 then DomNavigated(s, 0)
      else
        var t := s.(pending := Some(index));
        if index !in s.cache then LoadSent(t, index)
        else if s.cache[index].dom.Some? then DomNavigated(t, index)
        else if s.cache[index].content.Some? then LoadedNavigated(t, index)
        else t
    case ReloadPage(index) => Reloaded(s.(reloadCalled := s.reloadCalled[index := s.lastId]), index)
    case Loaded(id, content) =>
      var index := s.inFlight[id].index;
      var t := ContentTaken(s, id, content);
      ReloadTaken(if t.pending == Some(index) then LoadedNavigated(t, index) else t, index)
    case LoadFailed(id) => s.(inFlight := s.inFlight - {id})
    case PopState(index) => DomShown(s, index)
  }

  predicate PossibleRun(s: State, es: seq<Event>)
    decreases |es|
  {
    es == [] || (Possible(s, es[0]) && PossibleRun(Step(s, es[0]), es[1..]))
  }

  function Run(s: State, es: seq<Event>): State
    requires PossibleRun(s, es)
    decreases |es|
  {
    if es == [] then s else Run(Step(s, es[0]), es[1..])
  }

  // ---- Coherence ----

  // A page that is not on screen has its own element, which shows the page's content unless the page is
  // marked to be updated. The page on screen is never marked and its element shows its content.
  ghost predicate EntryCoherent(s: State, index: nat, entry: Entry)
    requires s.screen in s.shown
  {
    && (entry.dom.Some? ==> entry.dom.value in s.shown)
    && (entry.contentUpdated ==> entry.content.Some? && entry.dom.Some?)
    && (if index == s.index then
          && !entry.contentUpdated
          && (entry.dom.Some? ==> entry.dom.value == s.screen)
          && (entry.content.Some? ==> s.shown[s.screen] == entry.content.value)
        else
          entry.dom.Some? ==>
            && entry.dom.value != s.screen
            && (entry.content.Some? ==> s.shown[entry.dom.value] == entry.content.value || entry.contentUpdated))
  }

  ghost predicate ElementsNumbered(s: State) {
    && (forall d :: d in s.shown ==> d < |s.shown|)
    && s.screen in s.shown
  }

  ghost predicate ElementsDistinct(s: State) {
    forall i, j :: i in s.cache && j in s.cache && i != j && s.cache[i].dom.Some? ==> s.cache[i].dom != s.cache[j].dom
  }

  // Browser history leads only to pages that have an element, but for page 0 until it is first left; the
  // page waited for is elsewhere and has none.
  ghost predicate HistoryLeadsToElements(s: State) {
    && s.index in s.history
    && (forall i :: i in s.history && (i != s.index || i != 0) ==> i in s.cache && s.cache[i].dom.Some?)
    && (s.pending.Some? ==> s.pending.value != s.index && s.pending.value in s.cache
                            && s.cache[s.pending.value].dom.None?)
  }

  ghost predicate Coherent(s: State) {
    && ElementsNumbered(s)
    && (forall i :: i in s.cache ==> EntryCoherent(s, i, s.cache[i]))
    && ElementsDistinct(s)
    && HistoryLeadsToElements(s)
  }

  // An entry is replaced by a coherent one with the same element.
  lemma EntryReplacedKeepsCoherent(s: State, index: nat, entry: Entry)
    requires Coherent(s) && EntryCoherent(s, index, entry)
    requires entry.dom == EntryAt(s, index).dom
    ensures Coherent(s.(cache := s.cache[index := entry]))
  {
    hide EntryCoherent;
    var t := s.(cache := s.cache[index := entry]);
    forall i | i in t.cache ensures EntryCoherent(t, i, t.cache[i]) {
      SameScreenKeepsEntry(s, t, i, t.cache[i]);
    }
  }

  lemma SameScreenKeepsEntry(s: State, t: State, index: nat, entry: Entry)
    requires s.screen in s.shown && EntryCoherent(s, index, entry)
    requires t.shown == s.shown && t.screen == s.screen && t.index == s.index
    ensures EntryCoherent(t, index, entry)
  {
  }

  // Requests and their bookkeeping are no part of coherence.
  lemma RequestsKeepCoherent(s: State, t: State)
    requires Coherent(s)
    requires t == s.(lastId := t.lastId, inFlight := t.inFlight, contentFrom := t.contentFrom, reloadCalled := t.reloadCalled)
    ensures Coherent(t)
  {
    hide EntryCoherent;
    forall i | i in t.cache ensures EntryCoherent(t, i, t.cache[i]) {
      SameScreenKeepsEntry(s, t, i, t.cache[i]);
    }
  }

  lemma LoadFlagsKeepEntry(s: State, index: nat, loading: bool, reloadPending: bool)
    requires Coherent(s)
    ensures EntryCoherent(s, index, EntryAt(s, index).(loading := loading, reloadPending := reloadPending))
  {
  }

  lemma LoadSentKeepsCoherent(s: State, index: nat)
    requires Coherent(s)
    ensures Coherent(LoadSent(s, index))
  {
    hide Coherent;
    var entry := EntryAt(s, index);
    LoadFlagsKeepEntry(s, index, true, entry.reloadPending);
    EntryReplacedKeepsCoherent(s, index, entry.(loading := true));
    RequestsKeepCoherent(s.(cache := s.cache[index := entry.(loading := true)]), LoadSent(s, index));
  }

  // The content of the page on screen is shown at once.
  lemma MorphedKeepsCoherent(s: State, content: Content)
    requires Coherent(s)
    ensures Coherent(s.(cache := s.cache[s.index := EntryAt(s, s.index).(loading := false, content := Some(content))],
                        shown := s.shown[s.screen := content]))
  {
  }

  lemma ContentTakenKeepsCoherent(s: State, id: nat, content: Content)
    requires Coherent(s) && id in s.inFlight
    ensures Coherent(ContentTaken(s, id, content))
    ensures EntryAt(ContentTaken(s, id, content), s.inFlight[id].index).content == Some(content)
  {
    hide Coherent;
    var index := s.inFlight[id].index;
    var entry := EntryAt(s, index).(loading := false, content := Some(content));
    var t := ContentTaken(s, id, content);
    if index == s.index {
      MorphedKeepsCoherent(s, content);
      RequestsKeepCoherent(s.(cache := s.cache[index := entry], shown := s.shown[s.screen := content]), t);
    } else {
      var marked := entry.(contentUpdated := entry.dom.Some?);
      ContentMarkedCoherent(s, index, content);
      EntryReplacedKeepsCoherent(s, index, marked);
      RequestsKeepCoherent(s.(cache := s.cache[index := marked]), t);
    }
  }

  lemma ContentMarkedCoherent(s: State, index: nat, content: Content)
    requires Coherent(s) && index != s.index
    ensures s.screen in s.shown
    ensures var entry := EntryAt(s, index);
            EntryCoherent(s, index, entry.(loading := false, content := Some(content), contentUpdated := entry.dom.Some?))
  {
  }

  lemma UpdateAppliedKeepsCoherent(s: State)
    requires ElementsNumbered(s) && ElementsDistinct(s) && HistoryLeadsToElements(s)
    requires s.index in s.cache && s.cache[s.index].dom == Some(s.screen)
    requires forall i :: i in s.cache && i != s.index ==> EntryCoherent(s, i, s.cache[i])
    requires var entry := s.cache[s.index];
             entry.content.Some? ==> s.shown[s.screen] == entry.content.value || entry.contentUpdated
    requires var entry := s.cache[s.index]; entry.contentUpdated ==> entry.content.Some?
    ensures Coherent(UpdateApplied(s))
  {
  }

  lemma DomShownKeepsCoherent(s: State, index: nat)
    requires Coherent(s)
    requires s.index == index || EntryAt(s, index).dom.Some?
    ensures Coherent(DomShown(s, index)) && DomShown(s, index).index == index
  {
    if s.index != index {
      var now := EntryAt(s, index).dom.value;
      var u := s.(pending := None, cache := s.cache[s.index := EntryAt(s, s.index).(dom := Some(s.screen))],
                  screen := now, index := index, history := s.history + {index});
      UpdateAppliedKeepsCoherent(u);
    }
  }

  lemma NewElementKeepsCoherent(s: State, index: nat)
    requires Coherent(s) && s.pending.None?
    requires index != s.index && EntryAt(s, index).content.Some? && EntryAt(s, index).dom.None?
    ensures Coherent(s.(cache := s.cache[index := EntryAt(s, index).(dom := Some(FreshDom(s)))],
                        shown := s.shown[FreshDom(s) := EntryAt(s, index).content.value]))
  {
  }

  lemma LoadedNavigatedKeepsCoherent(s: State, index: nat)
    requires Coherent(s) && EntryAt(s, index).content.Some?
    requires index != s.index || EntryAt(s, index).dom.Some?
    ensures Coherent(LoadedNavigated(s, index)) && LoadedNavigated(s, index).index == index
  {
    hide Coherent, UpdateApplied;
    PendingForgotten(s);
    if EntryAt(s, index).dom.None? {
      var t := s.(pending := None);
      NewElementKeepsCoherent(t, index);
      DomShownKeepsCoherent(t.(cache := s.cache[index := EntryAt(s, index).(dom := Some(FreshDom(s)))],
                               shown := s.shown[FreshDom(s) := EntryAt(s, index).content.value]), index);
    } else if s.index != index {
      DomShownKeepsCoherent(s, index);
    }
  }

  lemma PendingForgotten(s: State)
    requires Coherent(s)
    ensures Coherent(s.(pending := None))
  {
  }

  lemma PendingSet(s: State, index: nat)
    requires Coherent(s)
    requires index in s.cache && s.cache[index].dom.None? && index != s.index
    ensures Coherent(s.(pending := Some(index)))
  {
  }

  lemma ReloadedKeepsCoherent(s: State, index: nat, calls: map<nat, nat>)
    requires Coherent(s)
    ensures Coherent(Reloaded(s.(reloadCalled := calls), index))
  {
    hide Coherent, LoadSent;
    var t := s.(reloadCalled := calls);
    RequestsKeepCoherent(s, t);
    if index in s.cache && s.cache[index].loading {
      LoadFlagsKeepEntry(t, index, true, true);
      EntryReplacedKeepsCoherent(t, index, t.cache[index].(reloadPending := true));
    } else {
      LoadSentKeepsCoherent(t, index);
    }
  }

  lemma PageWithoutElement(s: State, index: nat)
    requires Coherent(s) && (index != 0 || s.index != 0) && EntryAt(s, index).dom.None?
    ensures index != s.index
  {
  }

  lemma ReloadTakenUpKeepsCoherent(s: State, index: nat)
    requires Coherent(s) && index in s.cache
    ensures Coherent(s.(cache := s.cache[index := s.cache[index].(reloadPending := false)]))
  {
    hide Coherent;
    LoadFlagsKeepEntry(s, index, s.cache[index].loading, false);
    EntryReplacedKeepsCoherent(s, index, s.cache[index].(reloadPending := false));
  }

  lemma NavigateToKeepsCoherent(s: State, index: nat)
    requires Coherent(s)
    ensures Coherent(Step(s, Event.NavigateTo(index)))
  {
    hide Coherent, LoadedNavigated, DomShown;
    PendingForgotten(s);
    if index == 0 && s.index == 0 {
      return;
    }
    var t := s.(pending := Some(index));
    if index !in s.cache {
      PageWithoutElement(s, index);
      LoadSentKeepsCoherent(s, index);
      PendingSet(LoadSent(s, index), index);
      assert LoadSent(t, index) == LoadSent(s, index).(pending := Some(index));
    } else if s.cache[index].dom.Some? {
      DomShownIgnoresPending(s, index);
      if s.index != index {
        DomShownKeepsCoherent(s, index);
      }
    } else if s.cache[index].content.Some? {
      PageWithoutElement(s, index);
      LoadedNavigatedIgnoresPending(s, index);
      LoadedNavigatedKeepsCoherent(s, index);
    } else {
      PageWithoutElement(s, index);
      PendingSet(s, index);
    }
  }

  lemma DomShownIgnoresPending(s: State, index: nat)
    ensures DomShown(s.(pending := Some(index)), index) == DomShown(s, index)
  {
  }

  lemma LoadedNavigatedIgnoresPending(s: State, index: nat)
    requires EntryAt(s, index).content.Some?
    ensures LoadedNavigated(s.(pending := Some(index)), index) == LoadedNavigated(s, index)
  {
    hide UpdateApplied;
  }

  lemma LoadedKeepsCoherent(s: State, id: nat, content: Content)
    requires Coherent(s) && id in s.inFlight
    ensures Coherent(Step(s, Event.Loaded(id, content)))
  {
    hide Coherent, LoadedNavigated, ContentApplied;
    var index := s.inFlight[id].index;
    ContentTakenKeepsCoherent(s, id, content);
    var t := ContentTaken(s, id, content);
    if t.pending == Some(index) {
      PendingIsElsewhere(t);
      LoadedNavigatedKeepsCoherent(t, index);
    }
    var u := if t.pending == Some(index) then LoadedNavigated(t, index) else t;
    if EntryAt(u, index).reloadPending {
      ReloadTakenUpKeepsCoherent(u, index);
      var v := u.(cache := u.cache[index := u.cache[index].(reloadPending := false)]);
      ReloadedKeepsCoherent(v, index, v.reloadCalled);
      assert v.(reloadCalled := v.reloadCalled) == v;
    }
  }

  lemma PendingIsElsewhere(s: State)
    requires Coherent(s) && s.pending.Some?
    ensures s.pending.value != s.index
  {
  }

  // The only element that history can lead to is there.
  lemma PopStateFindsItsElement(s: State, index: nat)
    requires Coherent(s) && Possible(s, PopState(index))
    ensures s.index == index || EntryAt(s, index).dom.Some?
  {
  }

  lemma StepKeepsCoherent(s: State, e: Event)
    requires Coherent(s) && Possible(s, e)
    ensures Coherent(Step(s, e))
  {
    hide Coherent, DomShown, Reloaded, ContentTaken;
    match e
    case NavigateTo(index) => NavigateToKeepsCoherent(s, index);
    case ReloadPage(index) => ReloadedKeepsCoherent(s, index, s.reloadCalled[index := s.lastId]);
    case Loaded(id, content) => LoadedKeepsCoherent(s, id, content);
    case LoadFailed(id) => RequestsKeepCoherent(s, Step(s, e));
    case PopState(index) =>
      PopStateFindsItsElement(s, index);
      DomShownKeepsCoherent(s, index);
  }

  // ---- Freshness ----

  predicate Loads(s: State, id: nat, index: nat) {
    id in s.inFlight && s.inFlight[id].index == index
  }

  // A request under way is the only one for its page, and, unless the page is to be reloaded again, it was
  // sent after the last call of reloadPage.
  ghost predicate LoadInv(s: State, id: nat)
    requires id in s.inFlight
  {
    var index := s.inFlight[id].index;
    && id <= s.lastId
    && EntryAt(s, index).loading
    && (forall other :: Loads(s, other, index) ==> other == id)
    && (!EntryAt(s, index).reloadPending && index in s.reloadCalled ==> s.reloadCalled[index] < id)
  }

  // A page that is not being loaded is as fresh as its last reloadPage call asked for.
  ghost predicate PageInv(s: State, index: nat) {
    var entry := EntryAt(s, index);
    && (entry.content.Some? ==> index in s.contentFrom && s.contentFrom[index].content == entry.content.value)
    && (!entry.loading ==> !entry.reloadPending)
    && (!entry.loading && index in s.reloadCalled ==>
          entry.content.Some? && s.reloadCalled[index] < s.contentFrom[index].id)
    && (index in s.reloadCalled ==> s.reloadCalled[index] <= s.lastId)
    && (index in s.cache ==> entry.loading || entry.content.Some? || entry.dom.Some?)
    && (s.pending == Some(index) ==> entry.loading)
  }

  ghost predicate Fresh(s: State) {
    && (forall id :: id in s.inFlight ==> LoadInv(s, id))
    && (forall i :: PageInv(s, i))
  }

  // Moving between pages leaves requests, contents and what is to be reloaded as they are.
  ghost predicate OnlyNavigated(s: State, t: State) {
    && t.lastId == s.lastId && t.inFlight == s.inFlight
    && t.contentFrom == s.contentFrom && t.reloadCalled == s.reloadCalled
    && (forall i :: EntryKept(EntryAt(s, i), EntryAt(t, i)))
    && (forall i :: i in t.cache ==> i in s.cache || t.cache[i].dom.Some?)
    && (t.pending == s.pending || t.pending.None?)
  }

  ghost predicate EntryKept(e: Entry, f: Entry) {
    f.loading == e.loading && f.reloadPending == e.reloadPending && f.content == e.content && (e.dom.Some? ==> f.dom.Some?)
  }

  lemma NavigationKeepsFresh(s: State, t: State)
    requires Fresh(s) && OnlyNavigated(s, t)
    ensures Fresh(t)
  {
    forall id | id in t.inFlight ensures LoadInv(t, id) {
      var index := t.inFlight[id].index;
      assert LoadInv(s, id) && EntryKept(EntryAt(s, index), EntryAt(t, index));
      forall other | Loads(t, other, index) ensures other == id {
        assert Loads(s, other, index);
      }
    }
    forall i ensures PageInv(t, i) {
      assert PageInv(s, i) && EntryKept(EntryAt(s, i), EntryAt(t, i));
    }
  }

  lemma OnlyNavigatedTransitive(s: State, t: State, u: State)
    requires OnlyNavigated(s, t) && OnlyNavigated(t, u)
    ensures OnlyNavigated(s, u)
  {
    forall i ensures EntryKept(EntryAt(s, i), EntryAt(u, i)) {
      assert EntryKept(EntryAt(s, i), EntryAt(t, i)) && EntryKept(EntryAt(t, i), EntryAt(u, i));
    }
    forall i | i in u.cache ensures i in s.cache || u.cache[i].dom.Some? {
      assert EntryKept(EntryAt(t, i), EntryAt(u, i));
    }
  }

  lemma EntryReplacedOnlyNavigates(s: State, t: State, index: nat, entry: Entry)
    requires EntryKept(EntryAt(s, index), entry)
    requires index in s.cache || entry.dom.Some?
    requires t == s.(cache := s.cache[index := entry], shown := t.shown, screen := t.screen, index := t.index,
                     history := t.history, pending := t.pending)
    requires t.pending == s.pending || t.pending.None?
    ensures OnlyNavigated(s, t)
  {
  }

  lemma ContentAppliedOnlyNavigates(s: State, index: nat)
    requires index in s.cache
    ensures OnlyNavigated(s, ContentApplied(s, index)) && index in ContentApplied(s, index).cache
  {
    var entry := s.cache[index];
    EntryReplacedOnlyNavigates(s, ContentApplied(s, index), index,
                               if s.index != index then entry.(contentUpdated := entry.dom.Some?) else entry);
    assert s.cache == s.cache[index := entry];
  }

  lemma UpdateAppliedOnlyNavigates(s: State)
    requires s.index in s.cache
    ensures OnlyNavigated(s, UpdateApplied(s))
  {
    hide ContentApplied, OnlyNavigated;
    var entry := s.cache[s.index];
    if entry.contentUpdated {
      var t := s.(cache := s.cache[s.index := entry.(contentUpdated := false)]);
      EntryReplacedOnlyNavigates(s, t, s.index, entry.(contentUpdated := false));
      ContentAppliedOnlyNavigates(t, s.index);
      OnlyNavigatedTransitive(s, t, UpdateApplied(s));
    } else {
      assert s.cache == s.cache[s.index := entry];
      EntryReplacedOnlyNavigates(s, s, s.index, entry);
    }
  }

  lemma DomShownOnlyNavigates(s: State, index: nat)
    ensures OnlyNavigated(s, DomShown(s, index))
  {
    hide UpdateApplied, OnlyNavigated;
    if s.index == index {
      assert OnlyNavigated(s, s.(pending := None)) by { NothingNavigated(s); }
    } else {
      var was := EntryAt(s, s.index).(dom := Some(s.screen));
      var u := s.(pending := None, cache := s.cache[s.index := was]);
      EntryReplacedOnlyNavigates(s, u, s.index, was);
      if EntryAt(s, index).dom.Some? {
        var now := EntryAt(s, index).dom.value;
        var v := u.(screen := now, index := index, history := s.history + {index});
        EntryReplacedOnlyNavigates(s, v, s.index, was);
        UpdateAppliedOnlyNavigates(v);
        OnlyNavigatedTransitive(s, v, DomShown(s, index));
      }
    }
  }

  lemma NothingNavigated(s: State)
    ensures OnlyNavigated(s, s.(pending := None)) && OnlyNavigated(s, s)
  {
  }

  lemma DomNavigatedOnlyNavigates(s: State, index: nat)
    ensures OnlyNavigated(s, DomNavigated(s, index))
  {
    hide OnlyNavigated, UpdateApplied;
    DomShownOnlyNavigates(s, index);
  }

  lemma LoadedNavigatedOnlyNavigates(s: State, index: nat)
    ensures OnlyNavigated(s, LoadedNavigated(s, index))
  {
    hide DomNavigated, OnlyNavigated;
    var entry := EntryAt(s, index);
    if entry.dom.Some? || entry.content.None? {
      DomNavigatedOnlyNavigates(s, index);
    } else {
      var made := entry.(dom := Some(FreshDom(s)));
      var t := s.(cache := s.cache[index := made], shown := s.shown[FreshDom(s) := entry.content.value]);
      EntryReplacedOnlyNavigates(s, t, index, made);
      DomNavigatedOnlyNavigates(t, index);
      OnlyNavigatedTransitive(s, t, DomNavigated(t, index));
    }
  }

  // A request for a page that none is under way for.
  lemma LoadSentKeepsFresh(s: State, index: nat)
    requires forall id :: id in s.inFlight ==> LoadInv(s, id)
    requires forall i :: i != index ==> PageInv(s, i)
    requires !EntryAt(s, index).loading && !EntryAt(s, index).reloadPending
    requires index in s.reloadCalled ==> s.reloadCalled[index] <= s.lastId
    requires var entry := EntryAt(s, index);
             entry.content.Some? ==> index in s.contentFrom && s.contentFrom[index].content == entry.content.value
    ensures Fresh(LoadSent(s, index))
  {
    var t := LoadSent(s, index);
    var id := s.lastId + 1;
    forall other | other in t.inFlight ensures LoadInv(t, other) {
      if other != id {
        assert LoadInv(s, other);
        forall third | Loads(t, third, t.inFlight[other].index) ensures third == other {
          assert third != id ==> Loads(s, third, t.inFlight[other].index);
        }
      } else {
        forall third | Loads(t, third, index) ensures third == id {
          assert third in s.inFlight ==> LoadInv(s, third);
        }
      }
    }
    assert Loads(t, id, index);
    forall i ensures PageInv(t, i) {
      if i != index {
        assert PageInv(s, i);
      }
    }
  }

  // reloadPage during a load only asks for one more load.
  lemma ReloadAskedKeepsFresh(s: State, index: nat)
    requires Fresh(s) && EntryAt(s, index).loading && index in s.cache
    ensures Fresh(s.(reloadCalled := s.reloadCalled[index := s.lastId],
                     cache := s.cache[index := s.cache[index].(reloadPending := true)]))
  {
    var t := s.(reloadCalled := s.reloadCalled[index := s.lastId],
                cache := s.cache[index := s.cache[index].(reloadPending := true)]);
    forall id | id in t.inFlight ensures LoadInv(t, id) {
      assert LoadInv(s, id);
      forall other | Loads(t, other, t.inFlight[id].index) ensures other == id {
        assert Loads(s, other, t.inFlight[id].index);
      }
    }
    forall i ensures PageInv(t, i) {
      assert PageInv(s, i);
    }
  }

  lemma ReloadPageKeepsFresh(s: State, index: nat)
    requires Fresh(s)
    ensures Fresh(Step(s, Event.ReloadPage(index)))
  {
    hide LoadInv;
    assert PageInv(s, index);
    if index in s.cache && s.cache[index].loading {
      ReloadAskedKeepsFresh(s, index);
    } else {
      var t := s.(reloadCalled := s.reloadCalled[index := s.lastId]);
      forall id | id in t.inFlight ensures LoadInv(t, id) {
        NoLoadUnderWay(s, id, index);
        ReloadCallKeepsLoad(s, t, id);
      }
      forall i | i != index ensures PageInv(t, i) {
        assert PageInv(s, i);
      }
      LoadSentKeepsFresh(t, index);
    }
  }

  lemma NoLoadUnderWay(s: State, id: nat, index: nat)
    requires id in s.inFlight && LoadInv(s, id) && !EntryAt(s, index).loading
    ensures s.inFlight[id].index != index
  {
  }

  lemma ReloadCallKeepsLoad(s: State, t: State, id: nat)
    requires id in s.inFlight && LoadInv(s, id)
    requires t == s.(reloadCalled := t.reloadCalled)
    requires var index := s.inFlight[id].index;
             && (index in t.reloadCalled <==> index in s.reloadCalled)
             && (index in s.reloadCalled ==> t.reloadCalled[index] == s.reloadCalled[index])
    ensures LoadInv(t, id)
  {
    forall other | Loads(t, other, s.inFlight[id].index) ensures other == id {
      assert Loads(s, other, s.inFlight[id].index);
    }
  }

  // After a reply every page but its own is as before; its own is idle, and fresh unless a reload was asked for.
  ghost predicate FreshButFor(s: State, index: nat) {
    && (forall id :: id in s.inFlight ==> LoadInv(s, id))
    && (forall i :: i != index ==> PageInv(s, i))
    && index in s.cache
    && var entry := s.cache[index];
    && !entry.loading && entry.content.Some? && index in s.contentFrom && s.contentFrom[index].content == entry.content.value
    && (index in s.reloadCalled ==> s.reloadCalled[index] <= s.lastId)
    && (!entry.reloadPending && index in s.reloadCalled ==> s.reloadCalled[index] < s.contentFrom[index].id)
  }

  lemma ReplyStoredIsFresh(s: State, id: nat, content: Content)
    requires Fresh(s) && id in s.inFlight
    ensures FreshButFor(ReplyStored(s, id, content), s.inFlight[id].index)
  {
    var index := s.inFlight[id].index;
    var t := ReplyStored(s, id, content);
    assert LoadInv(s, id) && PageInv(s, index);
    forall other | other in t.inFlight ensures LoadInv(t, other) {
      assert LoadInv(s, other);
      var theirs := s.inFlight[other].index;
      assert Loads(s, other, theirs) && Loads(s, id, index);
      forall third | Loads(t, third, theirs) ensures third == other {
        assert Loads(s, third, theirs);
      }
    }
    forall i | i != index ensures PageInv(t, i) {
      assert PageInv(s, i);
    }
  }

  lemma NavigationKeepsFreshButFor(s: State, t: State, index: nat)
    requires FreshButFor(s, index) && OnlyNavigated(s, t) && index in t.cache
    ensures FreshButFor(t, index)
  {
    forall id | id in t.inFlight ensures LoadInv(t, id) {
      var mine := t.inFlight[id].index;
      assert LoadInv(s, id) && EntryKept(EntryAt(s, mine), EntryAt(t, mine));
      forall other | Loads(t, other, mine) ensures other == id {
        assert Loads(s, other, mine);
      }
    }
    assert EntryKept(EntryAt(s, index), EntryAt(t, index));
    forall i | i != index ensures PageInv(t, i) {
      assert PageInv(s, i) && EntryKept(EntryAt(s, i), EntryAt(t, i));
    }
  }

  lemma ReloadTakenIsFresh(s: State, index: nat)
    requires FreshButFor(s, index) && s.pending != Some(index)
    ensures Fresh(ReloadTaken(s, index))
  {
    if EntryAt(s, index).reloadPending {
      var t := s.(cache := s.cache[index := EntryAt(s, index).(reloadPending := false)]);
      forall id | id in t.inFlight ensures LoadInv(t, id) {
        var mine := t.inFlight[id].index;
        assert LoadInv(s, id);
        forall other | Loads(t, other, mine) ensures other == id {
          assert Loads(s, other, mine);
        }
      }
      forall i | i != index ensures PageInv(t, i) {
        assert PageInv(s, i);
      }
      LoadSentKeepsFresh(t, index);
    }
  }

  lemma ShowingForgetsPending(s: State, index: nat)
    ensures DomShown(s, index).pending.None?
  {
  }

  lemma DomNavigationForgetsPending(s: State, index: nat)
    ensures DomNavigated(s, index).pending.None?
  {
  }

  lemma NavigationForgetsPending(s: State, index: nat)
    ensures LoadedNavigated(s, index).pending.None?
  {
    hide DomNavigated;
    DomNavigationForgetsPending(s, index);
    if EntryAt(s, index).content.Some? {
      DomNavigationForgetsPending(s.(cache := s.cache[index := EntryAt(s, index).(dom := Some(FreshDom(s)))],
                                     shown := s.shown[FreshDom(s) := EntryAt(s, index).content.value]), index);
    }
  }

  lemma LoadedKeepsFresh(s: State, id: nat, content: Content)
    requires Fresh(s) && id in s.inFlight
    ensures Fresh(Step(s, Event.Loaded(id, content)))
  {
    hide Fresh, FreshButFor, OnlyNavigated, LoadedNavigated, ContentApplied, ReloadTaken;
    var index := s.inFlight[id].index;
    var r := ReplyStored(s, id, content);
    ReplyStoredIsFresh(s, id, content);
    var t := ContentApplied(r, index);
    ContentAppliedOnlyNavigates(r, index);
    NavigationKeepsFreshButFor(r, t, index);
    if t.pending == Some(index) {
      LoadedNavigatedOnlyNavigates(t, index);
      NavigationKeepsPages(t, LoadedNavigated(t, index), index);
      NavigationKeepsFreshButFor(t, LoadedNavigated(t, index), index);
      NavigationForgetsPending(t, index);
      ReloadTakenIsFresh(LoadedNavigated(t, index), index);
    } else {
      ReloadTakenIsFresh(t, index);
    }
  }

  lemma NavigationKeepsPages(s: State, t: State, index: nat)
    requires OnlyNavigated(s, t) && FreshButFor(s, index)
    ensures index in t.cache
  {
    assert EntryKept(EntryAt(s, index), EntryAt(t, index));
  }

  lemma PendingForgottenKeepsFresh(s: State)
    requires Fresh(s)
    ensures Fresh(s.(pending := None))
  {
    hide Fresh, OnlyNavigated;
    NothingNavigated(s);
    NavigationKeepsFresh(s, s.(pending := None));
  }

  lemma PendingSetKeepsLoads(s: State, index: nat)
    requires Fresh(s)
    ensures var t := s.(pending := Some(index));
            && (forall id :: id in t.inFlight ==> LoadInv(t, id))
            && (forall i :: i != index ==> PageInv(t, i))
            && (EntryAt(s, index).loading ==> PageInv(t, index))
  {
    var t := s.(pending := Some(index));
    forall id | id in t.inFlight ensures LoadInv(t, id) {
      assert LoadInv(s, id);
      forall other | Loads(t, other, t.inFlight[id].index) ensures other == id {
        assert Loads(s, other, t.inFlight[id].index);
      }
    }
    forall i | i != index || EntryAt(s, index).loading ensures PageInv(t, i) {
      assert PageInv(s, i);
    }
  }

  lemma NavigateToKeepsFresh(s: State, index: nat)
    requires Fresh(s)
    ensures Fresh(Step(s, Event.NavigateTo(index)))
  {
    hide LoadInv, OnlyNavigated, LoadedNavigated, DomShown, LoadSent;
    PendingForgottenKeepsFresh(s);
    assert PageInv(s, index);
    if index == 0 && s.index == 0 {
      return;
    }
    PendingSetKeepsLoads(s, index);
    if index !in s.cache {
      LoadSentKeepsFresh(s.(pending := Some(index)), index);
    } else if s.cache[index].dom.Some? {
      DomShownIgnoresPending(s, index);
      DomShownOnlyNavigates(s, index);
      NavigationKeepsFresh(s, DomShown(s, index));
    } else if s.cache[index].content.Some? {
      LoadedNavigatedIgnoresPending(s, index);
      LoadedNavigatedOnlyNavigates(s, index);
      NavigationKeepsFresh(s, LoadedNavigated(s, index));
    }
  }

  lemma LoadFailedKeepsFresh(s: State, id: nat)
    requires Fresh(s) && id in s.inFlight
    ensures Fresh(Step(s, LoadFailed(id)))
  {
    var t := Step(s, LoadFailed(id));
    forall other | other in t.inFlight ensures LoadInv(t, other) {
      assert LoadInv(s, other);
      forall third | Loads(t, third, t.inFlight[other].index) ensures third == other {
        assert Loads(s, third, t.inFlight[other].index);
      }
    }
    forall i ensures PageInv(t, i) {
      assert PageInv(s, i);
    }
  }

  lemma StepKeepsFresh(s: State, e: Event)
    requires Fresh(s) && Possible(s, e)
    ensures Fresh(Step(s, e))
  {
    hide Fresh, OnlyNavigated, DomShown, Reloaded, ContentTaken, ReloadTaken;
    match e
    case NavigateTo(index) => NavigateToKeepsFresh(s, index);
    case ReloadPage(index) => ReloadPageKeepsFresh(s, index);
    case Loaded(id, content) => LoadedKeepsFresh(s, id, content);
    case LoadFailed(id) => LoadFailedKeepsFresh(s, id);
    case PopState(index) =>
      DomShownOnlyNavigates(s, index);
      NavigationKeepsFresh(s, DomShown(s, index));
  }

  // ---- Every run ----

  lemma InitialIsCoherentAndFresh(html: Content)
    ensures Coherent(Initial(html)) && Fresh(Initial(html))
  {
  }

  lemma {:induction false} RunKeepsInv(s: State, es: seq<Event>)
    requires Coherent(s) && Fresh(s) && PossibleRun(s, es)
    ensures Coherent(Run(s, es)) && Fresh(Run(s, es))
    decreases |es|
  {
    hide Coherent, Fresh, Step;
    if es != [] {
      StepKeepsCoherent(s, es[0]);
      StepKeepsFresh(s, es[0]);
      RunKeepsInv(Step(s, es[0]), es[1..]);
    }
  }

  // In every run, the page on screen shows the content of the last reply for it, and so does the element of
  // any other page, unless that page is marked to be updated.
  lemma PagesShowTheirLatestContent(html: Content, es: seq<Event>, index: nat)
    requires PossibleRun(Initial(html), es)
    ensures var s := Run(Initial(html), es);
            var entry := EntryAt(s, index);
            && s.screen in s.shown
            && (entry.content.Some? ==> index in s.contentFrom && entry.content.value == s.contentFrom[index].content)
            && (entry.content.Some? && index == s.index ==> s.shown[s.screen] == entry.content.value)
            && (entry.content.Some? && index != s.index && entry.dom.Some? ==>
                  entry.dom.value in s.shown
                  && (s.shown[entry.dom.value] == entry.content.value || entry.contentUpdated))
  {
    hide Run, PossibleRun;
    var s := Run(Initial(html), es);
    InitialIsCoherentAndFresh(html);
    RunKeepsInv(Initial(html), es);
    assert PageInv(s, index);
    assert index in s.cache ==> EntryCoherent(s, index, s.cache[index]);
  }

  // In every run, a page has at most one load under way, and one that is not marked as loading is at least as
  // fresh as the last call of reloadPage for it.
  lemma IdlePagesAreFresh(html: Content, es: seq<Event>, index: nat)
    requires PossibleRun(Initial(html), es)
    ensures var s := Run(Initial(html), es);
            && (forall id, other :: Loads(s, id, index) && Loads(s, other, index) ==> id == other)
            && ((exists id :: Loads(s, id, index)) ==> EntryAt(s, index).loading)
            && (index in s.reloadCalled && !EntryAt(s, index).loading ==>
                  index in s.contentFrom && s.reloadCalled[index] < s.contentFrom[index].id
                  && EntryAt(s, index).content == Some(s.contentFrom[index].content))
  {
    hide Run, PossibleRun;
    var s := Run(Initial(html), es);
    InitialIsCoherentAndFresh(html);
    RunKeepsInv(Initial(html), es);
    assert PageInv(s, index);
    forall id | Loads(s, id, index) ensures LoadInv(s, id) {
    }
  }

  // In every run, browser history finds the element it leads to.
  lemma HistoryFindsItsElement(html: Content, es: seq<Event>, index: nat)
    requires PossibleRun(Initial(html), es)
    requires index in Run(Initial(html), es).history
    ensures var s := Run(Initial(html), es); s.index == index || EntryAt(s, index).dom.Some?
    ensures var t := Step(Run(Initial(html), es), PopState(index)); t.index == index && t.pending.None?
  {
    hide Run, PossibleRun, DomShown;
    InitialIsCoherentAndFresh(html);
    RunKeepsInv(Initial(html), es);
    PopStateFindsItsElement(Run(Initial(html), es), index);
    DomShownKeepsCoherent(Run(Initial(html), es), index);
    ShowingForgetsPending(Run(Initial(html), es), index);
  }

  // navigateTo shows the page, or waits for it while it is being loaded.
  lemma NavigateToArrivesOrWaits(s: State, index: nat)
    requires Coherent(s) && Fresh(s)
    ensures var t := Step(s, Event.NavigateTo(index));
            (t.index == index && t.pending.None?) || (t.pending == Some(index) && EntryAt(t, index).loading)
  {
    hide Coherent, LoadInv, DomShown, LoadedNavigated;
    assert PageInv(s, index);
    ShowingForgetsPending(s, index);
    NavigationForgetsPending(s, index);
    if index in s.cache && s.cache[index].dom.Some? {
      DomShownIgnoresPending(s, index);
      DomShownKeepsCoherent(s, index);
    } else if index in s.cache && s.cache[index].content.Some? && (index != 0 || s.index != 0) {
      PageWithoutElement(s, index);
      LoadedNavigatedIgnoresPending(s, index);
      LoadedNavigatedKeepsCoherent(s, index);
    }
  }

  // The reply for the page waited for puts it on screen.
  lemma WaitedPageIsShown(s: State, id: nat, content: Content)
    requires Coherent(s) && id in s.inFlight && s.pending == Some(s.inFlight[id].index)
    ensures var t := Step(s, Event.Loaded(id, content));
            t.index == s.inFlight[id].index && t.pending.None? && t.screen in t.shown && t.shown[t.screen] == content
  {
    hide Coherent, LoadedNavigated, ContentApplied;
    var index := s.inFlight[id].index;
    var r := ReplyStored(s, id, content);
    var t := ContentTaken(s, id, content);
    ContentTakenKeepsCoherent(s, id, content);
    PendingIsElsewhere(s);
    ContentAppliedKeepsPlace(r, index);
    var u := LoadedNavigated(t, index);
    LoadedNavigatedKeepsCoherent(t, index);
    LoadedNavigatedOnlyNavigates(t, index);
    NavigationForgetsPending(t, index);
    ScreenShowsContent(t, u, index, content);
  }

  lemma ContentAppliedKeepsPlace(s: State, index: nat)
    ensures var t := ContentApplied(s, index); t.index == s.index && t.pending == s.pending
  {
  }

  lemma ScreenShowsContent(t: State, u: State, index: nat, content: Content)
    requires OnlyNavigated(t, u) && Coherent(u) && u.index == index
    requires EntryAt(t, index).content == Some(content)
    ensures u.screen in u.shown && u.shown[u.screen] == content
  {
    assert EntryKept(EntryAt(t, index), EntryAt(u, index));
    assert EntryCoherent(u, index, u.cache[index]);
  }

  function ReloadCalls(index: nat, n: nat): (es: seq<Event>)
    ensures |es| == n
  {
    if n == 0 then [] else [Event.ReloadPage(index)] + ReloadCalls(index, n - 1)
  }

  // Any number of reloadPage calls during a load send nothing; the reply then sends one request for all of
  // them, and none if there were no calls.
  lemma {:induction false} ReloadsDuringLoadMerge(s: State, id: nat, n: nat, content: Content)
    requires Coherent(s) && Fresh(s) && id in s.inFlight
    ensures var index := s.inFlight[id].index;
            var es := ReloadCalls(index, n) + [Event.Loaded(id, content)];
            && PossibleRun(s, es)
            && var t := Run(s, es);
            if n > 0 || EntryAt(s, index).reloadPending then
              t.lastId == s.lastId + 1 && t.inFlight == (s.inFlight - {id})[t.lastId := Load(index)]
            else t.lastId == s.lastId && t.inFlight == s.inFlight - {id}
    decreases n
  {
    hide Coherent, Fresh, Step;
    var index := s.inFlight[id].index;
    var es := ReloadCalls(index, n) + [Event.Loaded(id, content)];
    if n == 0 {
      ReplySendsForPending(s, id, content);
      assert Run(Step(s, es[0]), es[1..]) == Step(s, es[0]);
    } else {
      var e := Event.ReloadPage(index);
      ReloadDuringLoadSendsNothing(s, id);
      StepKeepsCoherent(s, e);
      StepKeepsFresh(s, e);
      assert es[0] == e && es[1..] == ReloadCalls(index, n - 1) + [Event.Loaded(id, content)];
      ReloadsDuringLoadMerge(Step(s, e), id, n - 1, content);
    }
  }

  lemma ReloadDuringLoadSendsNothing(s: State, id: nat)
    requires Fresh(s) && id in s.inFlight
    ensures var t := Step(s, Event.ReloadPage(s.inFlight[id].index));
            t.lastId == s.lastId && t.inFlight == s.inFlight && EntryAt(t, s.inFlight[id].index).reloadPending
  {
    assert LoadInv(s, id);
  }

  // A reply ends its page's loading, unless a reload was asked for, which one more request then answers.
  lemma ReplySendsForPending(s: State, id: nat, content: Content)
    requires Fresh(s) && id in s.inFlight
    ensures var index := s.inFlight[id].index;
            var t := Step(s, Event.Loaded(id, content));
            && !EntryAt(t, index).reloadPending && EntryAt(t, index).content == Some(content)
            && if EntryAt(s, index).reloadPending then
                 t.lastId == s.lastId + 1 && t.inFlight == (s.inFlight - {id})[t.lastId := Load(index)]
               else t.lastId == s.lastId && t.inFlight == s.inFlight - {id} && !EntryAt(t, index).loading
  {
    hide LoadedNavigated, ContentApplied, OnlyNavigated, Fresh, ReplyStored;
    var index := s.inFlight[id].index;
    ReplyKeepsReloadPending(s, id, content);
    var r := ReplyStored(s, id, content);
    var t := ContentApplied(r, index);
    ContentAppliedOnlyNavigates(r, index);
    LoadedNavigatedOnlyNavigates(t, index);
    OnlyNavigatedTransitive(r, t, LoadedNavigated(t, index));
    NavigationKeepsFlags(r, t, index);
    NavigationKeepsFlags(r, LoadedNavigated(t, index), index);
  }

  lemma ReplyKeepsReloadPending(s: State, id: nat, content: Content)
    requires id in s.inFlight
    ensures var index := s.inFlight[id].index;
            var t := ReplyStored(s, id, content);
            && t.lastId == s.lastId && t.inFlight == s.inFlight - {id} && index in t.cache
            && !t.cache[index].loading && t.cache[index].reloadPending == EntryAt(s, index).reloadPending
            && t.cache[index].content == Some(content)
  {
  }

  lemma NavigationKeepsFlags(s: State, t: State, index: nat)
    requires OnlyNavigated(s, t)
    ensures t.lastId == s.lastId && t.inFlight == s.inFlight
    ensures EntryAt(t, index).loading == EntryAt(s, index).loading
    ensures EntryAt(t, index).reloadPending == EntryAt(s, index).reloadPending
    ensures EntryAt(t, index).content == EntryAt(s, index).content
  {
    assert EntryKept(EntryAt(s, index), EntryAt(t, index));
  }

  // ---- What is sent ----

  // A page never asked for is asked for, but for the one that came with the document; no other navigation
  // sends anything.
  lemma NavigateToSends(s: State, index: nat)
    ensures var t := Step(s, Event.NavigateTo(index));
            if index !in s.cache && !(index == 0 && s.index == 0) then
              t.lastId == s.lastId + 1 && t.inFlight == s.inFlight[t.lastId := Load(index)] && EntryAt(t, index).loading
            else t.lastId == s.lastId && t.inFlight == s.inFlight
  {
    hide OnlyNavigated, LoadedNavigated, DomShown;
    NothingNavigated(s);
    if index in s.cache && s.cache[index].dom.Some? {
      DomShownIgnoresPending(s, index);
      DomShownOnlyNavigates(s, index);
      NavigationKeepsFlags(s, DomShown(s, index), index);
    } else if index in s.cache && s.cache[index].content.Some? {
      LoadedNavigatedIgnoresPending(s, index);
      LoadedNavigatedOnlyNavigates(s, index);
      NavigationKeepsFlags(s, LoadedNavigated(s, index), index);
    }
  }

  // reloadPage asks for a page that is not being loaded, and for nothing else.
  lemma ReloadPageSends(s: State, index: nat)
    ensures var t := Step(s, Event.ReloadPage(index));
            && EntryAt(t, index).loading
            && if EntryAt(s, index).loading then
                 t.lastId == s.lastId && t.inFlight == s.inFlight && EntryAt(t, index).reloadPending
               else t.lastId == s.lastId + 1 && t.inFlight == s.inFlight[t.lastId := Load(index)]
  {
  }

  // A page marked as loading has its load under way.
  ghost predicate NotLost(s: State, index: nat) {
    EntryAt(s, index).loading ==> exists id :: Loads(s, id, index)
  }

  predicate FailsFor(s: State, e: Event, index: nat) {
    e.LoadFailed? && e.id in s.inFlight && s.inFlight[e.id].index == index
  }

  lemma SameRequestsKeepNotLost(s: State, t: State, index: nat)
    requires NotLost(s, index) && t.inFlight == s.inFlight
    requires EntryAt(t, index).loading ==> EntryAt(s, index).loading
    ensures NotLost(t, index)
  {
    if EntryAt(t, index).loading {
      var id :| Loads(s, id, index);
      assert Loads(t, id, index);
    }
  }

  lemma MoreRequestsKeepNotLost(s: State, t: State, other: nat, index: nat)
    requires NotLost(s, index) && Fresh(s)
    requires t.lastId == s.lastId + 1 && t.inFlight == s.inFlight[t.lastId := Load(other)]
    requires other != index ==> EntryAt(t, index).loading == EntryAt(s, index).loading
    ensures NotLost(t, index)
  {
    if other == index {
      assert Loads(t, t.lastId, index);
    } else if EntryAt(t, index).loading {
      var id :| Loads(s, id, index);
      assert LoadInv(s, id);
      assert Loads(t, id, index);
    }
  }

  lemma NavigationKeepsLoading(s: State, t: State, index: nat)
    requires OnlyNavigated(s, t)
    ensures EntryAt(t, index).loading == EntryAt(s, index).loading && t.inFlight == s.inFlight
  {
    assert EntryKept(EntryAt(s, index), EntryAt(t, index));
  }

  lemma NavigateToKeepsNotLost(s: State, other: nat, index: nat)
    requires NotLost(s, index) && Fresh(s)
    ensures NotLost(Step(s, Event.NavigateTo(other)), index)
  {
    hide OnlyNavigated, LoadedNavigated, DomShown, Fresh, NotLost;
    var t := Step(s, Event.NavigateTo(other));
    NavigateToSends(s, other);
    NothingNavigated(s);
    NavigationKeepsLoading(s, s.(pending := None), index);
    if other !in s.cache && !(other == 0 && s.index == 0) {
      MoreRequestsKeepNotLost(s, t, other, index);
    } else {
      if other in s.cache && s.cache[other].dom.Some? {
        DomShownIgnoresPending(s, other);
        DomShownOnlyNavigates(s, other);
        NavigationKeepsLoading(s, DomShown(s, other), index);
      } else if other in s.cache && s.cache[other].content.Some? {
        LoadedNavigatedIgnoresPending(s, other);
        LoadedNavigatedOnlyNavigates(s, other);
        NavigationKeepsLoading(s, LoadedNavigated(s, other), index);
      }
      SameRequestsKeepNotLost(s, t, index);
    }
  }

  lemma LoadedKeepsNotLost(s: State, id: nat, content: Content, index: nat)
    requires NotLost(s, index) && Fresh(s) && id in s.inFlight
    ensures NotLost(Step(s, Event.Loaded(id, content)), index)
  {
    var t := Step(s, Event.Loaded(id, content));
    var other := s.inFlight[id].index;
    ReplySendsForPending(s, id, content);
    hide Step, Fresh, ReplyStored, LoadedNavigated, ContentApplied, ReloadTaken;
    if other == index {
      if EntryAt(s, index).reloadPending {
        assert Loads(t, t.lastId, index);
      }
    } else {
      OtherReplyKeepsLoading(s, id, content, index);
      if EntryAt(s, index).loading {
        var mine :| Loads(s, mine, index);
        IdsAreOld(s, mine);
        assert Loads(t, mine, index);
      }
    }
  }

  lemma IdsAreOld(s: State, id: nat)
    requires Fresh(s) && id in s.inFlight
    ensures id <= s.lastId
  {
    assert LoadInv(s, id);
  }

  lemma OtherReplyKeepsLoading(s: State, id: nat, content: Content, index: nat)
    requires id in s.inFlight && s.inFlight[id].index != index
    ensures EntryAt(Step(s, Event.Loaded(id, content)), index).loading == EntryAt(s, index).loading
  {
    hide OnlyNavigated, LoadedNavigated, ContentApplied, ReplyStored, ReloadTaken;
    var other := s.inFlight[id].index;
    var r := ReplyStored(s, id, content);
    ReplyKeepsReloadPending(s, id, content);
    OtherEntryStays(s, id, content, index);
    var t := ContentApplied(r, other);
    ContentAppliedOnlyNavigates(r, other);
    NavigationKeepsLoading(r, t, index);
    LoadedNavigatedOnlyNavigates(t, other);
    NavigationKeepsLoading(t, LoadedNavigated(t, other), index);
    ReloadKeepsOthersLoading(t, other, index);
    ReloadKeepsOthersLoading(LoadedNavigated(t, other), other, index);
  }

  lemma OtherEntryStays(s: State, id: nat, content: Content, index: nat)
    requires id in s.inFlight && s.inFlight[id].index != index
    ensures EntryAt(ReplyStored(s, id, content), index) == EntryAt(s, index)
  {
  }

  lemma ReloadKeepsOthersLoading(s: State, other: nat, index: nat)
    requires other != index
    ensures EntryAt(ReloadTaken(s, other), index).loading == EntryAt(s, index).loading
  {
  }

  lemma StepKeepsNotLost(s: State, e: Event, index: nat)
    requires NotLost(s, index) && Fresh(s) && Possible(s, e) && !FailsFor(s, e, index)
    ensures NotLost(Step(s, e), index)
  {
    hide OnlyNavigated, DomShown, ReloadTaken, ContentTaken, Fresh;
    match e
    case NavigateTo(other) => NavigateToKeepsNotLost(s, other, index);
    case ReloadPage(other) =>
      ReloadPageSends(s, other);
      if EntryAt(s, other).loading {
        SameRequestsKeepNotLost(s, Step(s, e), index);
      } else {
        MoreRequestsKeepNotLost(s, Step(s, e), other, index);
      }
    case Loaded(id, content) => LoadedKeepsNotLost(s, id, content, index);
    case LoadFailed(id) =>
      if EntryAt(s, index).loading {
        var mine :| Loads(s, mine, index);
        assert Loads(Step(s, e), mine, index);
      }
    case PopState(other) =>
      DomShownOnlyNavigates(s, other);
      NavigationKeepsLoading(s, DomShown(s, other), index);
      SameRequestsKeepNotLost(s, DomShown(s, other), index);
  }

  // No load of the page fails in the run.
  predicate NoFailureFor(s: State, es: seq<Event>, index: nat)
    requires PossibleRun(s, es)
    decreases |es|
  {
    es == [] || (!FailsFor(s, es[0], index) && NoFailureFor(Step(s, es[0]), es[1..], index))
  }

  lemma {:induction false} RunKeepsNotLost(s: State, es: seq<Event>, index: nat)
    requires Coherent(s) && Fresh(s) && NotLost(s, index) && PossibleRun(s, es) && NoFailureFor(s, es, index)
    ensures NotLost(Run(s, es), index)
    decreases |es|
  {
    hide Coherent, Fresh, NotLost, Step, Possible, FailsFor;
    if es != [] {
      StepKeepsNotLost(s, es[0], index);
      StepKeepsCoherent(s, es[0]);
      StepKeepsFresh(s, es[0]);
      RunKeepsNotLost(Step(s, es[0]), es[1..], index);
    }
  }

  // In every run in which no load of the page fails, it is marked as loading exactly while a load is under way.
  lemma LoadingIsUnderWayIff(html: Content, es: seq<Event>, index: nat)
    requires PossibleRun(Initial(html), es) && NoFailureFor(Initial(html), es, index)
    ensures var s := Run(Initial(html), es);
            EntryAt(s, index).loading <==> exists id :: Loads(s, id, index)
  {
    hide Run, PossibleRun, NoFailureFor;
    InitialIsCoherentAndFresh(html);
    RunKeepsNotLost(Initial(html), es, index);
    IdlePagesAreFresh(html, es, index);
  }

  // ---- What stays ----

  // The element that leaves the screen is kept, and comes back with the page.
  lemma ElementComesBack(s: State, index: nat)
    requires Coherent(s) && index != s.index && EntryAt(s, index).dom.Some?
    ensures var t := DomShown(s, index);
            && t.screen == EntryAt(s, index).dom.value && t.index == index && t.pending.None?
            && EntryAt(t, s.index).dom == Some(s.screen)
            && DomShown(t, s.index).screen == s.screen && DomShown(t, s.index).index == s.index
  {
    hide Coherent;
    DomShownKeepsCoherent(s, index);
    ShownElement(s, index);
    var t := DomShown(s, index);
    ShownElement(t, s.index);
  }

  lemma ShownElement(s: State, index: nat)
    requires index != s.index && EntryAt(s, index).dom.Some?
    ensures var t := DomShown(s, index);
            t.screen == EntryAt(s, index).dom.value && t.index == index && t.pending.None?
            && EntryAt(t, s.index).dom == Some(s.screen)
  {
  }

  // ---- Failed loads ----

  // A page marked as loading with no load under way.
  ghost predicate Lost(s: State, index: nat) {
    EntryAt(s, index).loading && forall id :: !Loads(s, id, index)
  }

  lemma NavigationKeepsLost(s: State, t: State, index: nat)
    requires OnlyNavigated(s, t) && Lost(s, index)
    ensures Lost(t, index) && EntryAt(t, index).content == EntryAt(s, index).content
  {
    assert EntryKept(EntryAt(s, index), EntryAt(t, index));
    forall id ensures !Loads(t, id, index) {
      assert !Loads(s, id, index);
    }
  }

  lemma OtherLoadKeepsLost(s: State, other: nat, index: nat, calls: map<nat, nat>)
    requires Lost(s, index) && (other == index ==> index in s.cache && s.cache[index].loading)
    ensures var t := Reloaded(s.(reloadCalled := calls), other);
            Lost(t, index) && EntryAt(t, index).content == EntryAt(s, index).content
  {
    var t := Reloaded(s.(reloadCalled := calls), other);
    forall id ensures !Loads(t, id, index) {
      assert !Loads(s, id, index);
    }
  }

  lemma ReplyKeepsLost(s: State, id: nat, content: Content, index: nat)
    requires Lost(s, index) && id in s.inFlight
    ensures var t := ReplyStored(s, id, content);
            && s.inFlight[id].index != index && s.inFlight[id].index in t.cache
            && Lost(t, index) && EntryAt(t, index).content == EntryAt(s, index).content
  {
    var t := ReplyStored(s, id, content);
    assert !Loads(s, id, index);
    forall other ensures !Loads(t, other, index) {
      assert !Loads(s, other, index);
    }
  }

  lemma ReloadTakenKeepsLost(s: State, other: nat, index: nat)
    requires Lost(s, index) && other != index
    ensures Lost(ReloadTaken(s, other), index) && EntryAt(ReloadTaken(s, other), index).content == EntryAt(s, index).content
  {
    hide Reloaded;
    if EntryAt(s, other).reloadPending {
      var t := s.(cache := s.cache[other := EntryAt(s, other).(reloadPending := false)]);
      forall id ensures !Loads(t, id, index) {
        assert !Loads(s, id, index);
      }
      OtherLoadKeepsLost(t, other, index, t.reloadCalled);
      assert t.(reloadCalled := t.reloadCalled) == t;
    }
  }

  lemma LoadedKeepsLost(s: State, id: nat, content: Content, index: nat)
    requires Lost(s, index) && id in s.inFlight
    ensures var t := Step(s, Event.Loaded(id, content));
            Lost(t, index) && EntryAt(t, index).content == EntryAt(s, index).content
  {
    hide Lost, OnlyNavigated, LoadedNavigated, ContentApplied, ReloadTaken, ReplyStored;
    var other := s.inFlight[id].index;
    var r := ReplyStored(s, id, content);
    ReplyKeepsLost(s, id, content, index);
    var t := ContentApplied(r, other);
    ContentAppliedOnlyNavigates(r, other);
    NavigationKeepsLost(r, t, index);
    LoadedNavigatedOnlyNavigates(t, other);
    NavigationKeepsLost(t, LoadedNavigated(t, other), index);
    ReloadTakenKeepsLost(t, other, index);
    ReloadTakenKeepsLost(LoadedNavigated(t, other), other, index);
  }

  lemma NavigateToKeepsLost(s: State, other: nat, index: nat)
    requires Lost(s, index)
    ensures var t := Step(s, Event.NavigateTo(other));
            Lost(t, index) && EntryAt(t, index).content == EntryAt(s, index).content
  {
    hide OnlyNavigated, LoadedNavigated, DomShown;
    var t := s.(pending := Some(other));
    NothingNavigated(s);
    NavigationKeepsLost(s, s.(pending := None), index);
    if other == 0 && s.index == 0 {
    } else if other !in s.cache {
      var u := LoadSent(t, other);
      forall id ensures !Loads(u, id, index) {
        assert !Loads(s, id, index);
      }
    } else if s.cache[other].dom.Some? {
      DomShownIgnoresPending(s, other);
      DomShownOnlyNavigates(s, other);
      NavigationKeepsLost(s, DomShown(s, other), index);
    } else if s.cache[other].content.Some? {
      LoadedNavigatedIgnoresPending(s, other);
      LoadedNavigatedOnlyNavigates(s, other);
      NavigationKeepsLost(s, LoadedNavigated(s, other), index);
    } else {
      forall id ensures !Loads(t, id, index) {
        assert !Loads(s, id, index);
      }
    }
  }

  lemma LostStep(s: State, e: Event, index: nat)
    requires Lost(s, index) && Possible(s, e)
    ensures Lost(Step(s, e), index) && EntryAt(Step(s, e), index).content == EntryAt(s, index).content
  {
    hide OnlyNavigated, DomShown, ReloadTaken, ContentTaken, Reloaded;
    match e
    case NavigateTo(other) => NavigateToKeepsLost(s, other, index);
    case ReloadPage(other) => OtherLoadKeepsLost(s, other, index, s.reloadCalled[other := s.lastId]);
    case Loaded(id, content) => LoadedKeepsLost(s, id, content, index);
    case LoadFailed(id) =>
      forall other ensures !Loads(Step(s, e), other, index) {
        assert !Loads(s, other, index);
      }
    case PopState(other) =>
      DomShownOnlyNavigates(s, other);
      NavigationKeepsLost(s, DomShown(s, other), index);
  }

  // Whatever is called from then on, the page stays as it is: it is never asked for again.
  lemma {:induction false} LostForever(s: State, es: seq<Event>, index: nat)
    requires Lost(s, index) && PossibleRun(s, es)
    ensures Lost(Run(s, es), index) && EntryAt(Run(s, es), index).content == EntryAt(s, index).content
    decreases |es|
  {
    hide Lost, Step, Possible;
    if es != [] {
      LostStep(s, es[0], index);
      LostForever(Step(s, es[0]), es[1..], index);
    }
  }

  // A run after which the page is not marked as loading.
  ghost predicate Settles(s: State, es: seq<Event>, index: nat) {
    PossibleRun(s, es) && !EntryAt(Run(s, es), index).loading
  }

  lemma OneEvent(s: State, e: Event)
    requires Possible(s, e)
    ensures PossibleRun(s, [e]) && Run(s, [e]) == Step(s, e)
  {
    hide Step, Possible;
    assert PossibleRun(Step(s, e), []) && [e][1..] == [];
  }

  // A page's loading can come to an end exactly when its load is under way.
  lemma LoadingSettlesIff(s: State, index: nat)
    requires Coherent(s) && Fresh(s) && EntryAt(s, index).loading
    ensures (exists es :: Settles(s, es, index)) <==> exists id :: Loads(s, id, index)
  {
    hide Coherent, Fresh, Step, Run, PossibleRun, LoadInv;
    if id :| Loads(s, id, index) {
      var e := Event.Loaded(id, 0);
      var t := Step(s, e);
      ReplySendsForPending(s, id, 0);
      OneEvent(s, e);
      if EntryAt(s, index).reloadPending {
        StepKeepsFresh(s, e);
        ReplySendsForPending(t, t.lastId, 0);
        var f := Event.Loaded(t.lastId, 0);
        TwoEvents(s, e, f);
        assert Settles(s, [e, f], index);
      } else {
        assert Settles(s, [e], index);
      }
    } else {
      forall es | PossibleRun(s, es) ensures !Settles(s, es, index) {
        LostForever(s, es, index);
      }
    }
  }

  lemma TwoEvents(s: State, e: Event, f: Event)
    requires Possible(s, e) && Possible(Step(s, e), f)
    ensures PossibleRun(s, [e, f]) && Run(s, [e, f]) == Step(Step(s, e), f)
  {
    hide Step, Possible;
    OneEvent(Step(s, e), f);
    assert [e, f][1..] == [f];
  }

  // From the start: a page is loaded for the first time, and the load fails.
  lemma FailureLosesPage(html: Content, index: nat)
    ensures var es := [Event.ReloadPage(index), LoadFailed(1)];
            PossibleRun(Initial(html), es) && Lost(Run(Initial(html), es), index)
  {
    var s := Step(Initial(html), Event.ReloadPage(index));
    assert s.inFlight == map[1 := Load(index)];
    TwoEvents(Initial(html), Event.ReloadPage(index), LoadFailed(1));
  }

  // The page that is shown may as well be put into the history before.
  lemma HistoryPushedBefore(s: State, index: nat)
    requires index != s.index
    ensures var t := s.(pending := None, history := s.history + {index});
            DomShown(t, index).(history := t.history) == DomNavigated(s, index).(history := t.history)
    ensures EntryAt(s, index).dom.Some? ==> DomNavigated(s, index).history == s.history + {index}
  {
  }

  lemma HistoryKept(s: State, index: nat)
    requires index in s.history && (s.index == index || EntryAt(s, index).dom.Some?)
    ensures DomShown(s, index).(history := s.history) == DomShown(s, index)
  {
    assert s.history + {index} == s.history;
  }

  predicate UpdateHasContent(s: State, index: nat) {
    EntryAt(s, index).contentUpdated ==> EntryAt(s, index).content.Some?
  }

  lemma UpdatesHaveContent(s: State, index: nat)
    requires Coherent(s)
    ensures UpdateHasContent(s, index)
  {
  }

  // ---- The object ----

  class IV {
    var cache: map<nat, Entry>
    var index: nat
    var pending: Option<nat>
    // The document: what each page-scroll element shows, and which one is not hidden.
    var shown: map<Dom, Content>
    var screen: Dom
    // The requests sent and under way, and where the browser's history leads.
    var lastId: nat
    var inFlight: map<nat, Load>
    var history: set<nat>
    ghost var contentFrom: map<nat, Reply>
    ghost var reloadCalled: map<nat, nat>

    ghost function Abs(): State
      reads this
    {
      State(cache, index, pending, shown, screen, lastId, inFlight, history, contentFrom, reloadCalled)
    }

    ghost predicate Valid()
      reads this
    {
      Coherent(Abs()) && Fresh(Abs())
    }

    constructor (html: Content)
      ensures Abs() == Initial(html) && Valid()
    {
      cache, index, pending, shown, screen := map[], 0, None, map[0 := html], 0;
      lastId, inFlight, history, contentFrom, reloadCalled := 0, map[], {0}, map[], map[];
      new;
      InitialIsCoherentAndFresh(html);
    }

    method NavigateTo(page: nat)
      requires Valid()
      modifies this
      ensures Valid() && Abs() == Step(old(Abs()), Event.NavigateTo(page))
    {
      hide Coherent, Fresh, ContentApplied, LoadedNavigated, DomShown;
      ghost var s := Abs();
      StepKeepsCoherent(s, Event.NavigateTo(page));
      StepKeepsFresh(s, Event.NavigateTo(page));
      UpdatesHaveContent(s, page);
      if page == 0 && index == 0 {
        NavigateToDOM(index);
        return;
      }
      pending := Some(page);
      if page !in cache {
        LoadPage(page);
      } else if cache[page].dom.Some? {
        NavigateToDOM(page);
      } else if cache[page].content.Some? {
        NavigateToLoaded(page);
      }
    }

    method ApplyUpdatedContent(page: nat)
      requires page in cache && (page == index ==> cache[page].content.Some?)
      modifies this
      ensures Abs() == ContentApplied(old(Abs()), page)
    {
      if index != page {
        cache := cache[page := cache[page].(contentUpdated := cache[page].dom.Some?)];
        return;
      }
      // morphdom on the article and the footer of the element on screen
      shown := shown[screen := cache[page].content.value];
    }

    method LoadPage(page: nat)
      modifies this
      ensures Abs() == LoadSent(old(Abs()), page)
    {
      if page !in cache {
        cache := cache[page := EMPTY];
      }
      cache := cache[page := cache[page].(loading := true)];
      lastId := lastId + 1;
      inFlight := inFlight[lastId := Load(page)];
    }

    // The reply to request id.
    method Onload(id: nat, responseText: Content)
      requires Valid() && id in inFlight
      modifies this
      ensures Valid() && Abs() == Step(old(Abs()), Event.Loaded(id, responseText))
    {
      hide Coherent, Fresh, ContentApplied, LoadedNavigated, Reloaded;
      ghost var s := Abs();
      StepKeepsCoherent(s, Event.Loaded(id, responseText));
      StepKeepsFresh(s, Event.Loaded(id, responseText));
      var page := inFlight[id].index;
      inFlight := inFlight - {id};
      cache := cache[page := (if page in cache then cache[page] else EMPTY).(loading := false)];
      cache := cache[page := cache[page].(content := Some(responseText))];
      contentFrom := contentFrom[page := Reply(id, responseText)];
      assert cache == s.cache[page := EntryAt(s, page).(loading := false, content := Some(responseText))];
      assert Abs() == ReplyStored(s, id, responseText);
      ApplyUpdatedContent(page);
      ContentTakenKeepsCoherent(s, id, responseText);
      assert Abs() == ContentTaken(s, id, responseText);
      if pending == Some(page) {
        NavigateToLoaded(page);
      }
      if page in cache && cache[page].reloadPending {
        cache := cache[page := cache[page].(reloadPending := false)];
        ReloadPageAgain(page);
      }
    }

    // The call of reloadPage at the end of onload.
    method ReloadPageAgain(page: nat)
      modifies this
      ensures Abs() == Reloaded(old(Abs()), page)
    {
      if page in cache && cache[page].loading {
        cache := cache[page := cache[page].(reloadPending := true)];
        return;
      }
      LoadPage(page);
    }

    method ReloadPage(page: nat)
      requires Valid()
      modifies this
      ensures Valid() && Abs() == Step(old(Abs()), Event.ReloadPage(page))
    {
      hide Coherent, Fresh;
      StepKeepsCoherent(Abs(), Event.ReloadPage(page));
      StepKeepsFresh(Abs(), Event.ReloadPage(page));
      reloadCalled := reloadCalled[page := lastId];
      ReloadPageAgain(page);
    }

    method NavigateToLoaded(page: nat)
      requires page in cache && cache[page].content.Some?
      modifies this
      ensures Abs() == LoadedNavigated(old(Abs()), page)
    {
      hide DomShown;
      if cache[page].dom.Some? {
        NavigateToDOM(page);
      } else {
        var element := |shown|;
        shown := shown[element := cache[page].content.value];
        cache := cache[page := cache[page].(dom := Some(element))];
        NavigateToDOM(page);
      }
    }

    method NavigateToDOM(page: nat)
      requires UpdateHasContent(Abs(), page)
      requires page == index || (page in cache && cache[page].dom.Some?)
      modifies this
      ensures Abs() == DomNavigated(old(Abs()), page)
    {
      hide DomShown;
      pending := None;
      if index == page {
        return;
      }
      history := history + {page};
      HistoryPushedBefore(old(Abs()), page);
      ShowDOM(page);
    }

    // showDOM, from navigateToDOM or for browser history.
    method ShowDOM(page: nat)
      requires UpdateHasContent(Abs(), page)
      requires page == index || (page in cache && cache[page].dom.Some?)
      modifies this
      ensures history == old(history)
      ensures Abs() == DomShown(old(Abs()), page).(history := old(history))
    {
      pending := None;
      if index != page {
        var now := cache[page].dom.value;
        var was := screen;
        if index !in cache {
          cache := cache[index := EMPTY];
        }
        cache := cache[index := cache[index].(dom := Some(was))];
        screen := now;
        index := page;
        if cache[page].contentUpdated {
          cache := cache[page := cache[page].(contentUpdated := false)];
          ApplyUpdatedContent(page);
        }
      }
    }

    // An error: the request is gone, and nothing is done about it.
    method OnError(id: nat)
      requires Valid() && id in inFlight
      modifies this`inFlight
      ensures Valid() && Abs() == Step(old(Abs()), LoadFailed(id))
    {
      StepKeepsCoherent(Abs(), LoadFailed(id));
      StepKeepsFresh(Abs(), LoadFailed(id));
      inFlight := inFlight - {id};
    }

    method PopState(page: nat)
      requires Valid() && page in history
      modifies this
      ensures Valid() && Abs() == Step(old(Abs()), Event.PopState(page)) && index == page
    {
      hide Coherent, Fresh, DomShown;
      StepKeepsCoherent(Abs(), Event.PopState(page));
      StepKeepsFresh(Abs(), Event.PopState(page));
      PopStateFindsItsElement(Abs(), page);
      DomShownKeepsCoherent(Abs(), page);
      HistoryKept(Abs(), page);
      UpdatesHaveContent(Abs(), page);
      ShowDOM(page);
    }
  }
}
