// A search in a history and in the one it was migrated from (api_messages_search_merged.cpp): two page
// streams, arriving in any order, merged into one list.
module SearchMerged {
  import opened Options
  import opened SearchToken
  import opened Search

  // The two inner searches and the merged object's own fields; newFounds and nextFounds count the events
  // fired so far.
  datatype Merged = Merged(
    main: State, migrated: Option<State>,
    concatedFound: FoundMessages, migratedFirstFound: FoundMessages,
    waitingForTotal: bool, isFull: bool, newFounds: nat, nextFounds: nat)

  datatype MergedEvent =
    | More
    | FromMain(e: Event)       // an answer to the main search's request
    | FromMigrated(e: Event)   // an answer to the migrated search's request

  function Fresh(hasMigrated: bool): Merged {
    Merged(Search.INITIAL, if hasMigrated then Some(Search.INITIAL) else None,
           NOTHING_FOUND, NOTHING_FOUND, false, false, 0, 0)
  }

  function WithFound(m: Merged, data: FoundMessages): Merged {
    m.(concatedFound := m.concatedFound.(messages := m.concatedFound.messages + data.messages))
  }

  function TotalChecked(m: Merged): Merged {
    if m.waitingForTotal then
      if m.concatedFound.total >= 0 && m.migratedFirstFound.total >= 0 then
        m.(waitingForTotal := false, newFounds := m.newFounds + 1,
           concatedFound := m.concatedFound.(total := m.concatedFound.total + m.migratedFirstFound.total))
      else m
    else m.(newFounds := m.newFounds + 1)
  }

  function FullChecked(m: Merged, data: FoundMessages): Merged {
    if data.total == |m.concatedFound.messages| then WithFound(m.(isFull := true), m.migratedFirstFound) else m
  }

  lemma HandlersKeepSearches(m: Merged, data: FoundMessages)
    ensures MainFound(m, data).main == m.main == MigratedFound(m, data).main
    ensures MainFound(m, data).migrated == m.migrated == MigratedFound(m, data).migrated
    ensures m.isFull ==> MainFound(m, data).isFull
    ensures MigratedFound(m, data).isFull == m.isFull
  {
  }

  function MainFound(m: Merged, data: FoundMessages): Merged {
    if data.nextToken == m.concatedFound.nextToken then
      var t := FullChecked(WithFound(m, data), data);
      t.(nextFounds := t.nextFounds + 1)
    else
      TotalChecked(FullChecked(m.(concatedFound := data), data))
  }

  function MigratedFound(m: Merged, data: FoundMessages): Merged {
    var t := if m.isFull then WithFound(m, data) else m;
    if data.nextToken == t.migratedFirstFound.nextToken then t.(nextFounds := t.nextFounds + 1)
    else TotalChecked(t.(migratedFirstFound := data))
  }

  // An inner search makes a step, and what it publishes reaches its handler.
  function MainStep(m: Merged, e: Event): Merged
    requires Possible(m.main, e)
  {
    var s := Search.Step(m.main, e);
    var t := m.(main := s);
    if |s.published| > |m.main.published| then MainFound(t, s.published[|m.main.published|]) else t
  }

  function MigratedStep(m: Merged, e: Event): Merged
    requires m.migrated.Some? && Possible(m.migrated.value, e)
  {
    var was := m.migrated.value;
    var s := Search.Step(was, e);
    var t := m.(migrated := Some(s));
    if |s.published| > |was.published| then MigratedFound(t, s.published[|was.published|]) else t
  }

  function Started(m: Merged, r: Request): Merged {
    MainStep(if m.migrated.Some? then MigratedStep(m.(waitingForTotal := true), SearchMessages(r)) else m,
             SearchMessages(r))
  }

  predicate IsAnswer(s: State, e: Event) {
    (e.Done? || e.Fail?) && Possible(s, e)
    // the requests carry no hash, so the server never answers "not modified"
    && (e.Done? ==> !e.reply.NotModified?)
  }

  predicate MergedPossible(m: Merged, e: MergedEvent) {
    match e
    case More => true
    case FromMain(a) => IsAnswer(m.main, a)
    case FromMigrated(a) => m.migrated.Some? && IsAnswer(m.migrated.value, a)
  }

  function MergedStep(m: Merged, e: MergedEvent): Merged
    requires MergedPossible(m, e)
  {
    match e
    case More => if m.migrated.Some? && m.isFull then MigratedStep(m, SearchMore) else MainStep(m, SearchMore)
    case FromMain(a) => MainStep(m, a)
    case FromMigrated(a) => MigratedStep(m, a)
  }

  predicate MergedRunPossible(m: Merged, es: seq<MergedEvent>)
    decreases |es|
  {
    es == [] || (MergedPossible(m, es[0]) && MergedRunPossible(MergedStep(m, es[0]), es[1..]))
  }

  function MergedRun(m: Merged, es: seq<MergedEvent>): Merged
    requires MergedRunPossible(m, es)
    decreases |es|
  {
    if es == [] then m else MergedRun(MergedStep(m, es[0]), es[1..])
  }

  // ---- What the pages delivered so far say ----

  function AllMessages(pages: seq<FoundMessages>): seq<nat> {
    if pages == [] then [] else AllMessages(pages[..|pages| - 1]) + pages[|pages| - 1].messages
  }

  // Some page's total is the number of messages delivered up to it.
  predicate ReachedTotal(pages: seq<FoundMessages>) {
    pages != []
    && (ReachedTotal(pages[..|pages| - 1]) || pages[|pages| - 1].total == |AllMessages(pages)|)
  }

  lemma OneMorePage(pages: seq<FoundMessages>, page: FoundMessages)
    ensures AllMessages(pages + [page]) == AllMessages(pages) + page.messages
    ensures ReachedTotal(pages + [page])
       <==> ReachedTotal(pages) || page.total == |AllMessages(pages)| + |page.messages|
  {
    assert (pages + [page])[..|pages|] == pages;
  }

  function MigratedPages(m: Merged): seq<FoundMessages> {
    if m.migrated.Some? then m.migrated.value.published else []
  }

  // ---- One search inside ----

  // An inner search that was only ever asked for one request, with this token.
  ghost predicate OneSearch(s: State, token: string) {
    && Token(s.request) == token
    && s.searchInHistoryRequest == s.requestId <= s.lastId
    && s.inFlight.Keys == (if s.requestId == 0 then {} else {s.requestId})
    && (s.requestId != 0 ==> s.inFlight[s.requestId].token == token)
    && (forall t :: t in s.cacheOfStartByToken ==> !s.cacheOfStartByToken[t].NotModified?)
    && (forall i :: 0 <= i < |s.published| ==> s.published[i].nextToken == token && s.published[i].total >= 0)
  }

  ghost predicate PageOf(page: FoundMessages, token: string) {
    page.nextToken == token && page.total >= 0
  }

  lemma OneSearchPages(s: State, token: string)
    requires OneSearch(s, token)
    ensures forall p | p in s.published :: PageOf(p, token)
  {
  }

  lemma OneSearchStep(s: State, token: string, e: Event)
    requires OneSearch(s, token) && (e == SearchMore || IsAnswer(s, e))
    ensures var t := Search.Step(s, e);
            OneSearch(t, token)
            && (t.published == s.published
                || (|t.published| == |s.published| + 1 && t.published == s.published + [t.published[|s.published|]]))
            && (e != SearchMore ==> s.inFlight != map[] && t.inFlight == map[])
            && (t.published != s.published ==> t.inFlight == map[])
  {
    hide Token, UsableIds;
  }

  lemma OneSearchStart(r: Request)
    ensures var s := Search.Step(Search.INITIAL, SearchMessages(r));
            OneSearch(s, Token(r)) && s.published == []
  {
    hide Token;
  }

  // ---- The merged list ----

  // The total to show for the pages delivered so far.
  function TotalOf(hasMigrated: bool, mainPages: seq<FoundMessages>, migratedPages: seq<FoundMessages>): int {
    if mainPages == [] then -1
    else if !hasMigrated || migratedPages == [] then mainPages[0].total
    else mainPages[0].total + migratedPages[0].total
  }

  // The merged object's own fields, in terms of the pages delivered so far.
  ghost predicate Lists(m: Merged, hasMigrated: bool, token: string,
                        mainPages: seq<FoundMessages>, migratedPages: seq<FoundMessages>)
  {
    && (hasMigrated || migratedPages == [])
    && (m.isFull <==> ReachedTotal(mainPages))
    && m.concatedFound.messages == AllMessages(mainPages) + (if m.isFull then AllMessages(migratedPages) else [])
    && m.migratedFirstFound == (if migratedPages == [] then NOTHING_FOUND else migratedPages[0])
    && m.concatedFound.nextToken == (if mainPages == [] then "" else token)
    && m.concatedFound.total == TotalOf(hasMigrated, mainPages, migratedPages)
    && m.waitingForTotal == (hasMigrated && (mainPages == [] || migratedPages == []))
    && m.newFounds == (if mainPages == [] || (hasMigrated && migratedPages == []) then 0 else 1)
    && m.nextFounds == LaterPages(mainPages) + LaterPages(migratedPages)
  }

  // How many pages came after the first.
  function LaterPages(pages: seq<FoundMessages>): nat {
    if pages == [] then 0 else |pages| - 1
  }

  lemma OnePageLater(pages: seq<FoundMessages>, page: FoundMessages)
    ensures LaterPages(pages + [page]) == if pages == [] then 0 else LaterPages(pages) + 1
    ensures LaterPages([]) == 0
  {
  }

  lemma MainPageKeepsLists(m: Merged, hasMigrated: bool, token: string,
                           mainPages: seq<FoundMessages>, migratedPages: seq<FoundMessages>, page: FoundMessages)
    requires Lists(m, hasMigrated, token, mainPages, migratedPages) && token != "" && PageOf(page, token)
    requires forall p | p in mainPages :: PageOf(p, token)
    requires forall p | p in migratedPages :: PageOf(p, token)
    requires if m.isFull then migratedPages == [] else |migratedPages| <= 1
    ensures Lists(MainFound(m, page), hasMigrated, token, mainPages + [page], migratedPages)
  {
    hide AllMessages, ReachedTotal, LaterPages;
    OnePageLater(mainPages, page);
    OneMorePage(mainPages, page);
    OnePageAtMost(mainPages);
    OnePageAtMost(migratedPages);
    assert migratedPages != [] ==> PageOf(migratedPages[0], token);
    var list := AllMessages(mainPages) + page.messages;
    if mainPages == [] {
      assert list == page.messages;
      assert FullChecked(m.(concatedFound := page), page).concatedFound.messages
          == list + (if page.total == |list| then AllMessages(migratedPages) else []);
    } else {
      assert (mainPages + [page])[0] == mainPages[0] && PageOf(mainPages[0], token);
      var t := FullChecked(WithFound(m, page), page);
      assert t.isFull <==> ReachedTotal(mainPages + [page]);
      assert t.concatedFound.messages == list + (if t.isFull then AllMessages(migratedPages) else []);
    }
  }

  lemma MigratedPageKeepsLists(m: Merged, token: string,
                               mainPages: seq<FoundMessages>, migratedPages: seq<FoundMessages>, page: FoundMessages)
    requires Lists(m, true, token, mainPages, migratedPages) && token != "" && PageOf(page, token)
    requires forall p | p in mainPages :: PageOf(p, token)
    requires forall p | p in migratedPages :: PageOf(p, token)
    ensures Lists(MigratedFound(m, page), true, token, mainPages, migratedPages + [page])
  {
    hide AllMessages, ReachedTotal, LaterPages;
    OnePageLater(migratedPages, page);
    OneMorePage(migratedPages, page);
    OnePageAtMost(migratedPages);
    assert mainPages != [] ==> PageOf(mainPages[0], token);
    if migratedPages == [] {
      assert AllMessages(mainPages) + [] == AllMessages(mainPages);
    } else {
      assert (migratedPages + [page])[0] == migratedPages[0] && PageOf(migratedPages[0], token);
    }
  }

  lemma OnePageAtMost(pages: seq<FoundMessages>)
    ensures AllMessages([]) == [] && !ReachedTotal([])
    ensures |pages| == 1 ==> AllMessages(pages) == pages[0].messages
  {
    if |pages| == 1 {
      assert AllMessages(pages[..0]) == [];
    }
  }

  ghost predicate MergedInv(m: Merged, token: string) {
    var mainPages, migratedPages := m.main.published, MigratedPages(m);
    && OneSearch(m.main, token)
    && (m.migrated.Some? ==> OneSearch(m.migrated.value, token))
    // until the main history is complete, the migrated one is asked once; from then on, only it is asked
    && (!m.isFull ==> |migratedPages| <= 1 && (|migratedPages| == 1 ==> m.migrated.value.inFlight == map[]))
    && (m.isFull && m.migrated.Some? ==> m.main.inFlight == map[])
    && Lists(m, m.migrated.Some?, token, mainPages, migratedPages)
  }

  lemma MainStepKeepsInv(m: Merged, token: string, e: Event)
    requires MergedInv(m, token) && token != ""
    requires IsAnswer(m.main, e) || (e == SearchMore && !(m.migrated.Some? && m.isFull))
    ensures MergedInv(MainStep(m, e), token)
  {
    hide OneSearch, Search.Step, Lists, MainFound, PageOf;
    var s := Search.Step(m.main, e);
    var pages := m.main.published;
    OneSearchStep(m.main, token, e);
    if s.published != pages {
      var page := s.published[|pages|];
      OneSearchPages(s, token);
      OneSearchPages(m.main, token);
      if m.migrated.Some? {
        OneSearchPages(m.migrated.value, token);
      }
      HandlersKeepSearches(m.(main := s), page);
      ListsOfFields(m, m.(main := s), token);
      MainPageKeepsLists(m.(main := s), m.migrated.Some?, token, pages, MigratedPages(m), page);
    } else {
      ListsOfFields(m, m.(main := s), token);
    }
  }

  // Lists says nothing of the inner searches.
  lemma ListsOfFields(m: Merged, n: Merged, token: string)
    requires n == m.(main := n.main, migrated := n.migrated)
    ensures forall h, p, q :: Lists(m, h, token, p, q) ==> Lists(n, h, token, p, q)
  {
  }

  lemma MigratedStepKeepsInv(m: Merged, token: string, e: Event)
    requires MergedInv(m, token) && token != "" && m.migrated.Some?
    requires IsAnswer(m.migrated.value, e) || (e == SearchMore && m.isFull)
    ensures MergedInv(MigratedStep(m, e), token)
  {
    hide OneSearch, Search.Step, Lists, MigratedFound, PageOf;
    var was := m.migrated.value;
    var s := Search.Step(was, e);
    var pages := was.published;
    OneSearchStep(was, token, e);
    ListsOfFields(m, m.(migrated := Some(s)), token);
    if s.published != pages {
      var page := s.published[|pages|];
      OneSearchPages(s, token);
      OneSearchPages(was, token);
      OneSearchPages(m.main, token);
      HandlersKeepSearches(m.(migrated := Some(s)), page);
      MigratedPageKeepsLists(m.(migrated := Some(s)), token, m.main.published, pages, page);
    }
  }

  lemma StartedInv(hasMigrated: bool, r: Request)
    requires Token(r) != ""
    ensures MergedInv(Started(Fresh(hasMigrated), r), Token(r))
    ensures Started(Fresh(hasMigrated), r).migrated.Some? == hasMigrated
  {
    OneSearchStart(r);
    OnePageAtMost([]);
    hide OneSearch, AllMessages, ReachedTotal, Token;
  }

  lemma MergedStepKeepsInv(m: Merged, token: string, e: MergedEvent)
    requires MergedInv(m, token) && token != "" && MergedPossible(m, e)
    ensures MergedInv(MergedStep(m, e), token)
  {
    hide MergedInv, MainStep, MigratedStep;
    match e
    case More =>
      if m.migrated.Some? && m.isFull {
        MigratedStepKeepsInv(m, token, SearchMore);
      } else {
        MainStepKeepsInv(m, token, SearchMore);
      }
    case FromMain(a) => MainStepKeepsInv(m, token, a);
    case FromMigrated(a) => MigratedStepKeepsInv(m, token, a);
  }

  lemma {:induction false} MergedRunKeepsInv(m: Merged, token: string, es: seq<MergedEvent>)
    requires MergedInv(m, token) && token != "" && MergedRunPossible(m, es)
    ensures MergedInv(MergedRun(m, es), token)
    ensures MergedRun(m, es).migrated.Some? == m.migrated.Some?
    decreases |es|
  {
    hide MergedInv, MergedPossible;
    if es != [] {
      MergedStepKeepsInv(m, token, es[0]);
      MigratedStays(m, es[0]);
      MergedRunKeepsInv(MergedStep(m, es[0]), token, es[1..]);
    }
  }

  lemma MigratedStays(m: Merged, e: MergedEvent)
    requires MergedPossible(m, e)
    ensures MergedStep(m, e).migrated.Some? == m.migrated.Some?
  {
    hide Search.Step;
  }

  // One search with a non-empty token on a fresh object, under every order of answers: the list is every page
  // that the main search published so far, and once one of them completes it also every page that the migrated
  // search published, in order; the total is the sum of both histories' first totals, added once, and
  // newFounds fires once, when the totals it waits for are there.
  lemma MergedListIsWhatWasPublished(hasMigrated: bool, r: Request, es: seq<MergedEvent>)
    requires Token(r) != "" && MergedRunPossible(Started(Fresh(hasMigrated), r), es)
    ensures var m := MergedRun(Started(Fresh(hasMigrated), r), es);
            var mainPages, migratedPages := m.main.published, MigratedPages(m);
            m.concatedFound.messages
              == AllMessages(mainPages) + (if ReachedTotal(mainPages) then AllMessages(migratedPages) else [])
            && m.concatedFound.total == (if mainPages == [] then -1
                                         else if hasMigrated && migratedPages != [] then
                                           mainPages[0].total + migratedPages[0].total
                                         else mainPages[0].total)
            && m.newFounds == (if mainPages == [] || (hasMigrated && migratedPages == []) then 0 else 1)
            && m.nextFounds == (if |mainPages| > 0 then |mainPages| - 1 else 0)
                               + (if |migratedPages| > 0 then |migratedPages| - 1 else 0)
  {
    hide OneSearch, AllMessages, ReachedTotal, Token, Started, MergedStep, MergedPossible;
    var start := Started(Fresh(hasMigrated), r);
    StartedInv(hasMigrated, r);
    MergedRunKeepsInv(start, Token(r), es);
    var m := MergedRun(start, es);
    assert m.isFull <==> ReachedTotal(m.main.published);
  }

  // A search on a fresh object asks both histories for the same thing.
  lemma BothHistoriesAreSearched(hasMigrated: bool, r: Request)
    ensures var m := Started(Fresh(hasMigrated), r);
            var sent := map[1 := Sent(r, 0, Token(r))];
            && m.main.inFlight == sent && m.main.request == r && m.main.published == []
            && (m.migrated.Some? <==> hasMigrated)
            && (hasMigrated ==> m.migrated.value.inFlight == sent && m.migrated.value.request == r
                                && m.migrated.value.published == [])
  {
    hide Token;
  }

  // More asks the main history until it is complete, and then the migrated one, for what comes after their last
  // pages; an answer goes to the history it came from.
  lemma OneHistoryIsAsked(m: Merged, e: MergedEvent)
    requires MergedPossible(m, e)
    ensures var n := MergedStep(m, e);
            match e
            case More =>
              if m.migrated.Some? && m.isFull then
                n.main == m.main && n.migrated == Some(Search.Step(m.migrated.value, SearchMore))
              else n.main == Search.Step(m.main, SearchMore) && n.migrated == m.migrated
            case FromMain(a) => n.main == Search.Step(m.main, a) && n.migrated == m.migrated
            case FromMigrated(a) => n.main == m.main && n.migrated == Some(Search.Step(m.migrated.value, a))
  {
    hide Search.Step, MainStep, MigratedStep;
    match e
    case More =>
      if m.migrated.Some? && m.isFull {
        MigratedStepSearches(m, SearchMore);
      } else {
        MainStepSearches(m, SearchMore);
      }
    case FromMain(a) => MainStepSearches(m, a);
    case FromMigrated(a) => MigratedStepSearches(m, a);
  }

  // ---- Pages published and replies ----

  // The replies to a search, as pages.
  function ReplyPages(answered: seq<Answer>, token: string): seq<FoundMessages> {
    if answered == [] then []
    else ReplyPages(answered[..|answered| - 1], token) + [Parsed(answered[|answered| - 1].reply, token)]
  }

  function Ids(reply: Reply): seq<nat> {
    Parsed(reply, "").messages
  }

  // The replies of an inner search with one request, its cache and its offset. A first reply without messages
  // leaves it at the start, where the cache is asked.
  ghost predicate Replied(s: State, token: string) {
    && (token in s.cacheOfStartByToken <==> s.answered != [])
    && (s.answered == [] ==> s.offsetId == 0)
    && (s.answered != [] ==>
          var first, last := s.answered[0].reply, s.answered[|s.answered| - 1].reply;
          && s.cacheOfStartByToken[token] == first
          && (s.offsetId == LastOr0(Ids(last)) || s.offsetId == LastOr0(Ids(first)))
          && (Ids(first) == [] ==> |s.answered| == 1 && s.requestId == 0))
  }

  // A page is published for a reply, for the cached first reply, or for a failure.
  lemma RepliedStep(s: State, token: string, e: Event)
    requires OneSearch(s, token) && Replied(s, token) && (e == SearchMore || IsAnswer(s, e))
    ensures var t := Search.Step(s, e);
            && Replied(t, token)
            && (if e.Done? then
                  t.answered == s.answered + [Answer(s.inFlight[e.id], e.reply)]
                  && t.published == s.published + [Parsed(e.reply, token)]
                else if e == SearchMore && IsServedFromCache(s, e) then
                  t.answered == s.answered != [] && t.published == s.published + [Parsed(s.answered[0].reply, token)]
                else if e.Fail? && e.queryEmpty then
                  t.answered == s.answered && t.published == s.published + [FoundMessages(0, [], token)]
                else t.answered == s.answered && t.published == s.published)
  {
    hide Token, UsableIds;
  }

  // Published once each: what was published beside the replies held no messages.
  ghost predicate PublishedOnce(pages: seq<FoundMessages>, replies: seq<FoundMessages>, once: bool) {
    if once then AllMessages(pages) == AllMessages(replies) else |AllMessages(pages)| > |AllMessages(replies)|
  }

  // The messages that a searchMore publishes again.
  function RepeatedBy(s: State): seq<nat> {
    if IsServedFromCache(s, SearchMore) then Ids(s.cacheOfStartByToken[Token(s.request)]) else []
  }

  function RepeatedByMain(m: Merged, e: MergedEvent): seq<nat> {
    if e.More? && !(m.migrated.Some? && m.isFull) then RepeatedBy(m.main) else []
  }

  function RepeatedByMigrated(m: Merged, e: MergedEvent): seq<nat> {
    if e.More? && m.migrated.Some? && m.isFull then RepeatedBy(m.migrated.value) else []
  }

  // Some step of the run publishes messages of the main, or the migrated, history again.
  predicate MainRepeats(m: Merged, es: seq<MergedEvent>)
    requires MergedRunPossible(m, es)
    decreases |es|
  {
    es != [] && (RepeatedByMain(m, es[0]) != [] || MainRepeats(MergedStep(m, es[0]), es[1..]))
  }

  predicate MigratedRepeats(m: Merged, es: seq<MergedEvent>)
    requires MergedRunPossible(m, es)
    decreases |es|
  {
    es != [] && (RepeatedByMigrated(m, es[0]) != [] || MigratedRepeats(MergedStep(m, es[0]), es[1..]))
  }

  // The main search fails for an empty query before any message came: its empty result counts as complete.
  predicate FailsAtStart(m: Merged, e: MergedEvent) {
    e.FromMain? && e.e.Fail? && e.e.queryEmpty && AllMessages(ReplyPages(m.main.answered, "")) == []
  }

  predicate StartFails(m: Merged, es: seq<MergedEvent>)
    requires MergedRunPossible(m, es)
    decreases |es|
  {
    es != [] && (FailsAtStart(m, es[0]) || StartFails(MergedStep(m, es[0]), es[1..]))
  }

  lemma {:induction false} PagesOfAnyToken(answered: seq<Answer>, token: string)
    ensures AllMessages(ReplyPages(answered, token)) == AllMessages(ReplyPages(answered, ""))
  {
    if answered != [] {
      var rest := answered[..|answered| - 1];
      PagesOfAnyToken(rest, token);
      OneMorePage(ReplyPages(rest, token), Parsed(answered[|answered| - 1].reply, token));
      OneMorePage(ReplyPages(rest, ""), Parsed(answered[|answered| - 1].reply, ""));
    }
  }

  lemma OneMoreReply(answered: seq<Answer>, a: Answer, token: string)
    ensures ReplyPages(answered + [a], token) == ReplyPages(answered, token) + [Parsed(a.reply, token)]
  {
    assert (answered + [a])[..|answered|] == answered;
  }

  // One inner search: its pages against its replies, and when they complete it.
  ghost predicate Told(s: State, token: string, once: bool) {
    Replied(s, token) && PublishedOnce(s.published, ReplyPages(s.answered, token), once)
  }

  ghost predicate Completed(s: State, token: string, once: bool, failed: bool) {
    once ==> (ReachedTotal(s.published) <==> ReachedTotal(ReplyPages(s.answered, token)) || failed)
  }

  lemma SearchKeepsTold(s: State, token: string, once: bool, failed: bool, e: Event)
    requires OneSearch(s, token) && Told(s, token, once) && (e == SearchMore || IsAnswer(s, e))
    ensures var t := Search.Step(s, e);
            var onceMore := once && (if e == SearchMore then RepeatedBy(s) else []) == [];
            && Told(t, token, onceMore)
            && (Completed(s, token, once, failed) ==>
                  Completed(t, token, onceMore,
                            failed || (e.Fail? && e.queryEmpty && AllMessages(ReplyPages(s.answered, "")) == [])))
  {
    hide Replied, ReachedTotal, AllMessages, Search.Step, Token, UsableIds;
    RepliedStep(s, token, e);
    PagesOfAnyToken(s.answered, token);
    var replies := ReplyPages(s.answered, token);
    if e.Done? {
      OneMoreReply(s.answered, Answer(s.inFlight[e.id], e.reply), token);
      OneMorePage(s.published, Parsed(e.reply, token));
      OneMorePage(replies, Parsed(e.reply, token));
    } else if e == SearchMore && IsServedFromCache(s, e) {
      OneMorePage(s.published, Parsed(s.answered[0].reply, token));
      CachedPage(s, token);
    } else if e.Fail? && e.queryEmpty {
      OneMorePage(s.published, FoundMessages(0, [], token));
    }
  }

  // The cached page is the first reply's; when it holds no messages, it is all there is.
  lemma CachedPage(s: State, token: string)
    requires OneSearch(s, token) && Replied(s, token) && s.answered != []
    ensures s.cacheOfStartByToken[Token(s.request)] == s.answered[0].reply
    ensures Parsed(s.answered[0].reply, token).messages == Ids(s.answered[0].reply)
    ensures var replies := ReplyPages(s.answered, token);
            Ids(s.answered[0].reply) == [] ==>
              AllMessages(replies) == []
              && (Parsed(s.answered[0].reply, token).total == 0 ==> ReachedTotal(replies))
  {
    hide OneSearch, UsableIds, ReplyPages, AllMessages, ReachedTotal, Token;
    assert Token(s.request) == token by { TokenOfSearch(s, token); }
    if Ids(s.answered[0].reply) == [] {
      assert s.answered == [s.answered[0]];
      OneReply(s.answered[0], token);
    }
  }

  lemma TokenOfSearch(s: State, token: string)
    requires OneSearch(s, token)
    ensures Token(s.request) == token
  {
  }

  lemma OneReply(a: Answer, token: string)
    ensures var page := Parsed(a.reply, token);
            && ReplyPages([a], token) == [page]
            && AllMessages([page]) == page.messages
            && (page.total == |page.messages| ==> ReachedTotal([page]))
  {
    OnePageAtMost([Parsed(a.reply, token)]);
    assert [a][..0] == [];
  }

  // ---- The merged list against the replies ----

  ghost predicate MergedTold(m: Merged, token: string, mainOnce: bool, migratedOnce: bool, failed: bool) {
    && Told(m.main, token, mainOnce) && Completed(m.main, token, mainOnce, failed)
    && (if m.migrated.Some? then Told(m.migrated.value, token, migratedOnce) else migratedOnce)
    && (!m.isFull ==> migratedOnce)
  }

  lemma MainStepSearches(m: Merged, e: Event)
    requires Possible(m.main, e)
    ensures var n := MainStep(m, e);
            n.main == Search.Step(m.main, e) && n.migrated == m.migrated && (m.isFull ==> n.isFull)
  {
    hide Search.Step, MainFound;
    var s := Search.Step(m.main, e);
    if |s.published| > |m.main.published| {
      HandlersKeepSearches(m.(main := s), s.published[|m.main.published|]);
    }
  }

  lemma MigratedStepSearches(m: Merged, e: Event)
    requires m.migrated.Some? && Possible(m.migrated.value, e)
    ensures var n := MigratedStep(m, e);
            n.main == m.main && n.migrated == Some(Search.Step(m.migrated.value, e)) && n.isFull == m.isFull
  {
    hide Search.Step, MigratedFound;
    var s := Search.Step(m.migrated.value, e);
    if |s.published| > |m.migrated.value.published| {
      HandlersKeepSearches(m.(migrated := Some(s)), s.published[|m.migrated.value.published|]);
    }
  }

  lemma MergedStepKeepsTold(m: Merged, token: string, mainOnce: bool, migratedOnce: bool, failed: bool, e: MergedEvent)
    requires MergedInv(m, token) && MergedPossible(m, e)
    requires MergedTold(m, token, mainOnce, migratedOnce, failed)
    ensures MergedTold(MergedStep(m, e), token, mainOnce && RepeatedByMain(m, e) == [],
                       migratedOnce && RepeatedByMigrated(m, e) == [], failed || FailsAtStart(m, e))
  {
    hide OneSearch, Lists, Told, Completed, RepeatedBy, MainStep, MigratedStep, AllMessages, ReplyPages;
    match e
    case More =>
      if m.migrated.Some? && m.isFull {
        MigratedStepSearches(m, SearchMore);
        SearchKeepsTold(m.migrated.value, token, migratedOnce, false, SearchMore);
      } else {
        MainStepSearches(m, SearchMore);
        SearchKeepsTold(m.main, token, mainOnce, failed, SearchMore);
      }
    case FromMain(a) =>
      MainStepSearches(m, a);
      SearchKeepsTold(m.main, token, mainOnce, failed, a);
    case FromMigrated(a) =>
      MigratedStepSearches(m, a);
      SearchKeepsTold(m.migrated.value, token, migratedOnce, false, a);
  }

  lemma {:induction false} MergedRunKeepsTold(
      m: Merged, token: string, mainOnce: bool, migratedOnce: bool, failed: bool, es: seq<MergedEvent>)
    requires MergedInv(m, token) && token != "" && MergedRunPossible(m, es)
    requires MergedTold(m, token, mainOnce, migratedOnce, failed)
    ensures MergedTold(MergedRun(m, es), token, mainOnce && !MainRepeats(m, es),
                       migratedOnce && !MigratedRepeats(m, es), failed || StartFails(m, es))
    decreases |es|
  {
    hide MergedInv, MergedTold, MergedPossible, MergedStep, RepeatedByMain, RepeatedByMigrated, FailsAtStart;
    if es != [] {
      var e := es[0];
      MergedStepKeepsInv(m, token, e);
      MergedStepKeepsTold(m, token, mainOnce, migratedOnce, failed, e);
      MergedRunKeepsTold(MergedStep(m, e), token, mainOnce && RepeatedByMain(m, e) == [],
                         migratedOnce && RepeatedByMigrated(m, e) == [], failed || FailsAtStart(m, e), es[1..]);
    }
  }

  lemma StartedTold(hasMigrated: bool, r: Request)
    requires Token(r) != ""
    ensures MergedTold(Started(Fresh(hasMigrated), r), Token(r), true, true, false)
  {
    OnePageAtMost([]);
    hide AllMessages, ReachedTotal, Token;
  }

  // The list holds every message the server replied with, each once and in order: all of the main history's
  // replies and, once they are complete, all of the migrated one's. It does so exactly when no searchMore
  // published messages of a first page again, which happens when it finds the search back at the start after
  // a page without messages. Then the main history counts as complete exactly when a reply's total is
  // reached, or its search failed for an empty query before any message came.
  lemma MergedSearchIsRight(hasMigrated: bool, r: Request, es: seq<MergedEvent>)
    requires Token(r) != "" && MergedRunPossible(Started(Fresh(hasMigrated), r), es)
    ensures var start := Started(Fresh(hasMigrated), r);
            var m := MergedRun(start, es);
            var mainReplies := ReplyPages(m.main.answered, Token(r));
            var migratedReplies := if m.migrated.Some? then ReplyPages(m.migrated.value.answered, Token(r)) else [];
            var repeats := MainRepeats(start, es) || MigratedRepeats(start, es);
            && (m.concatedFound.messages == AllMessages(mainReplies) + (if m.isFull then AllMessages(migratedReplies) else [])
                <==> !repeats)
            && (!repeats ==> (m.isFull <==> ReachedTotal(mainReplies) || StartFails(start, es)))
  {
    hide OneSearch, AllMessages, ReachedTotal, Token, Started, MergedStep, MergedPossible, Replied;
    var start := Started(Fresh(hasMigrated), r);
    StartedInv(hasMigrated, r);
    StartedTold(hasMigrated, r);
    MergedRunKeepsInv(start, Token(r), es);
    MergedRunKeepsTold(start, Token(r), true, true, false, es);
    MergedListIsWhatWasPublished(hasMigrated, r, es);
    OnePageAtMost([]);
    assert MergedRun(start, es).migrated.None? ==> !MigratedRepeats(start, es);
  }

  // A first page is published again only after a reply without a message to go on from: none that is usable,
  // or a last one with id 0.
  lemma RepeatFollowsEmptyPage(s: State, token: string)
    requires OneSearch(s, token) && Replied(s, token) && RepeatedBy(s) != []
    ensures s.answered != []
    ensures exists a :: a in s.answered && LastOr0(Ids(a.reply)) == 0
  {
    hide Token, UsableIds;
    assert s.answered[0] in s.answered && s.answered[|s.answered| - 1] in s.answered;
  }

  predicate GoesOn(e: MergedEvent) {
    !e.More? && e.e.Done? ==> LastOr0(Ids(e.e.reply)) != 0
  }

  ghost predicate AllGoOn(answered: seq<Answer>) {
    forall a :: a in answered ==> LastOr0(Ids(a.reply)) != 0
  }

  ghost predicate MergedGoesOn(m: Merged, token: string) {
    && Replied(m.main, token) && AllGoOn(m.main.answered)
    && (m.migrated.Some? ==> Replied(m.migrated.value, token) && AllGoOn(m.migrated.value.answered))
  }

  lemma StepGoesOn(m: Merged, token: string, e: MergedEvent)
    requires MergedInv(m, token) && MergedPossible(m, e) && GoesOn(e) && MergedGoesOn(m, token)
    ensures MergedGoesOn(MergedStep(m, e), token)
    ensures RepeatedByMain(m, e) == [] && RepeatedByMigrated(m, e) == []
  {
    hide OneSearch, Lists, Replied, RepeatedBy, MainStep, MigratedStep, Ids, Search.Step, Token;
    if RepeatedBy(m.main) != [] {
      RepeatFollowsEmptyPage(m.main, token);
    }
    if m.migrated.Some? && RepeatedBy(m.migrated.value) != [] {
      RepeatFollowsEmptyPage(m.migrated.value, token);
    }
    var a := if e.More? then SearchMore else e.e;
    if e.FromMigrated? || (e.More? && m.migrated.Some? && m.isFull) {
      MigratedStepSearches(m, a);
      RepliedStep(m.migrated.value, token, a);
    } else {
      MainStepSearches(m, a);
      RepliedStep(m.main, token, a);
    }
  }

  lemma {:induction false} RunGoesOn(m: Merged, token: string, es: seq<MergedEvent>)
    requires MergedInv(m, token) && token != "" && MergedRunPossible(m, es) && MergedGoesOn(m, token)
    requires forall e :: e in es ==> GoesOn(e)
    ensures !MainRepeats(m, es) && !MigratedRepeats(m, es)
    decreases |es|
  {
    hide MergedInv, MergedGoesOn, MergedPossible, MergedStep, RepeatedByMain, RepeatedByMigrated, GoesOn;
    if es != [] {
      MergedStepKeepsInv(m, token, es[0]);
      StepGoesOn(m, token, es[0]);
      RunGoesOn(MergedStep(m, es[0]), token, es[1..]);
    }
  }

  // So nothing is repeated while every reply has a message to go on from.
  lemma NothingRepeatsWithoutEmptyPages(hasMigrated: bool, r: Request, es: seq<MergedEvent>)
    requires Token(r) != "" && MergedRunPossible(Started(Fresh(hasMigrated), r), es)
    requires forall e :: e in es ==> GoesOn(e)
    ensures !MainRepeats(Started(Fresh(hasMigrated), r), es) && !MigratedRepeats(Started(Fresh(hasMigrated), r), es)
  {
    hide MergedInv, Token, Started, GoesOn;
    StartedInv(hasMigrated, r);
    StartedGoesOn(hasMigrated, r);
    RunGoesOn(Started(Fresh(hasMigrated), r), Token(r), es);
  }

  lemma StartedGoesOn(hasMigrated: bool, r: Request)
    ensures MergedGoesOn(Started(Fresh(hasMigrated), r), Token(r))
  {
    hide Token;
  }

  lemma RunOfFour(m: Merged, a: MergedEvent, b: MergedEvent, c: MergedEvent, d: MergedEvent)
    requires MergedPossible(m, a) && MergedPossible(MergedStep(m, a), b)
    requires MergedPossible(MergedStep(MergedStep(m, a), b), c)
    requires MergedPossible(MergedStep(MergedStep(MergedStep(m, a), b), c), d)
    ensures MergedRunPossible(m, [a, b, c, d])
    ensures MergedRun(m, [a, b, c, d]) == MergedStep(MergedStep(MergedStep(MergedStep(m, a), b), c), d)
  {
    hide MergedPossible, MergedStep, MergedRun, MergedRunPossible;
    var m1 := MergedStep(m, a);
    var m2 := MergedStep(m1, b);
    var m3 := MergedStep(m2, c);
    assert [d] + [] == [d] && [c] + [d] == [c, d] && [b] + [c, d] == [b, c, d] && [a] + [b, c, d] == [a, b, c, d];
    RunOfNone(MergedStep(m3, d));
    RunFirst(m3, d, []);
    RunFirst(m2, c, [d]);
    RunFirst(m1, b, [c, d]);
    RunFirst(m, a, [b, c, d]);
  }

  lemma RunOfNone(m: Merged)
    ensures MergedRunPossible(m, []) && MergedRun(m, []) == m
  {
  }

  lemma RunFirst(m: Merged, e: MergedEvent, es: seq<MergedEvent>)
    requires MergedPossible(m, e) && MergedRunPossible(MergedStep(m, e), es)
    ensures MergedRunPossible(m, [e] + es) && MergedRun(m, [e] + es) == MergedRun(MergedStep(m, e), es)
  {
    hide MergedPossible, MergedStep;
    assert ([e] + es)[1..] == es;
  }

  function FirstPage(r: Request, id: nat, count: nat): FoundMessages {
    FoundMessages(count, [id], Token(r))
  }

  // The four steps: a page with one message, another request, a page with none, and the first page again.
  lemma FourSteps(r: Request, id: nat, count: nat)
    requires Token(r) != "" && id != 0 && count > 1
    ensures var one, none := MessagesSlice([Item(id, true)], count), MessagesSlice([], count);
            var page := FirstPage(r, id, count);
            var sent1, sent2 := Sent(r, 0, Token(r)), Sent(r, id, Token(r));
            var s1 := State(r, id, map[Token(r) := one], 0, 0, 1, map[], [Answer(sent1, one)], [page]);
            var s2 := s1.(requestId := 2, searchInHistoryRequest := 2, lastId := 2, inFlight := map[2 := sent2]);
            var s3 := State(r, 0, map[Token(r) := one], 0, 0, 2, map[], [Answer(sent1, one), Answer(sent2, none)],
                            [page, page.(messages := [])]);
            var m1 := Merged(s1, None, page, NOTHING_FOUND, false, false, 1, 0);
            var m2, m3 := m1.(main := s2), m1.(main := s3, nextFounds := 1);
            && FromMainStep(Started(Fresh(false), r), Done(1, one), m1)
            && MergedStep(m1, More) == m2
            && FromMainStep(m2, Done(2, none), m3)
            && MergedStep(m3, More)
               == m3.(main := s3.(offsetId := id, published := s3.published + [page]),
                      concatedFound := page.(messages := [id, id]), isFull := count == 2, nextFounds := 2)
  {
    hide Token;
    assert UsableIds([Item(id, true)]) == [id];
    assert [id] + [] == [id] && [id] + [id] == [id, id] && [id, id] + [] == [id, id];
  }

  predicate FromMainStep(m: Merged, e: Event, n: Merged) {
    MergedPossible(m, FromMain(e)) && MergedStep(m, FromMain(e)) == n
  }

  // It does happen: a page with one message, then a page with none, and the first page comes again. A total
  // of two then makes the main history complete after one message of it.
  lemma FirstPageIsRepeated(r: Request, id: nat, count: nat)
    requires Token(r) != "" && id != 0 && count > 1
    ensures var start := Started(Fresh(false), r);
            var es := [FromMain(Done(1, MessagesSlice([Item(id, true)], count))), More,
                       FromMain(Done(2, MessagesSlice([], count))), More];
            && MergedRunPossible(start, es)
            && var m := MergedRun(start, es);
            && AllMessages(ReplyPages(m.main.answered, Token(r))) == [id]
            && m.concatedFound.messages == [id, id]
            && (count == 2 ==> m.isFull && !ReachedTotal(ReplyPages(m.main.answered, Token(r))))
  {
    hide MergedStep, Started, Token, AllMessages, ReachedTotal, ReplyPages, UsableIds;
    var one, none := MessagesSlice([Item(id, true)], count), MessagesSlice([], count);
    FourSteps(r, id, count);
    RunOfFour(Started(Fresh(false), r), FromMain(Done(1, one)), More, FromMain(Done(2, none)), More);
    TwoReplies(Answer(Sent(r, 0, Token(r)), one), Answer(Sent(r, id, Token(r)), none), Token(r));
    OneId(id);
  }

  lemma OneId(id: nat)
    ensures UsableIds([Item(id, true)]) == [id] && UsableIds([]) == []
  {
  }

  lemma TwoReplies(a: Answer, b: Answer, token: string)
    ensures var p, q := Parsed(a.reply, token), Parsed(b.reply, token);
            var pages := ReplyPages([a, b], token);
            && AllMessages(pages) == p.messages + q.messages
            && (ReachedTotal(pages) <==> p.total == |p.messages| || q.total == |p.messages| + |q.messages|)
  {
    hide Parsed;
    OneReply(a, token);
    OneMoreReply([a], b, token);
    assert [a] + [b] == [a, b];
    OnePageAtMost([Parsed(a.reply, token)]);
    assert [Parsed(a.reply, token)][..0] == [];
    OneMorePage([Parsed(a.reply, token)], Parsed(b.reply, token));
  }

  // The token must not be empty: the search for nothing never gets a total and never fires newFounds.
  ghost predicate NoTotal(m: Merged) {
    && OneSearch(m.main, "") && (m.migrated.Some? ==> OneSearch(m.migrated.value, ""))
    && m.concatedFound.total == -1 && m.concatedFound.nextToken == "" && m.newFounds == 0
    && m.migratedFirstFound == NOTHING_FOUND
  }

  lemma NoTotalStays(m: Merged, e: MergedEvent)
    requires NoTotal(m) && MergedPossible(m, e)
    ensures NoTotal(MergedStep(m, e))
  {
    hide OneSearch, Search.Step;
    var a := if e.More? then SearchMore else e.e;
    if e.FromMigrated? || (e.More? && m.migrated.Some? && m.isFull) {
      var was := m.migrated.value;
      OneSearchStep(was, "", a);
      OneSearchPages(Search.Step(was, a), "");
      var pages := Search.Step(was, a).published;
      assert |pages| > |was.published| ==> PageOf(pages[|was.published|], "");
    } else {
      OneSearchStep(m.main, "", a);
      OneSearchPages(Search.Step(m.main, a), "");
      var pages := Search.Step(m.main, a).published;
      assert |pages| > |m.main.published| ==> PageOf(pages[|m.main.published|], "");
    }
  }

  lemma {:induction false} EmptyTokenNeverHasTotal(m: Merged, es: seq<MergedEvent>)
    requires NoTotal(m) && MergedRunPossible(m, es)
    ensures NoTotal(MergedRun(m, es))
    decreases |es|
  {
    hide NoTotal, MergedPossible;
    if es != [] {
      NoTotalStays(m, es[0]);
      EmptyTokenNeverHasTotal(MergedStep(m, es[0]), es[1..]);
    }
  }

  lemma SearchForNothingNeverHasTotal(hasMigrated: bool, topMsgId: nat, es: seq<MergedEvent>)
    requires MergedRunPossible(Started(Fresh(hasMigrated), NO_REQUEST.(topMsgId := topMsgId)), es)
    ensures var m := MergedRun(Started(Fresh(hasMigrated), NO_REQUEST.(topMsgId := topMsgId)), es);
            m.concatedFound.total == -1 && m.newFounds == 0
  {
    OneSearchStart(NO_REQUEST.(topMsgId := topMsgId));
    EmptyTokenNeverHasTotal(Started(Fresh(hasMigrated), NO_REQUEST.(topMsgId := topMsgId)), es);
  }

  // ---- The object ----

  class MessagesSearchMerged {
    const apiSearch: MessagesSearch
    const migratedSearch: MessagesSearch?
    var concatedFound: FoundMessages
    var migratedFirstFound: FoundMessages
    var waitingForTotal: bool
    var isFull: bool
    ghost var newFounds: nat    // how often the event was fired
    ghost var nextFounds: nat

    ghost predicate Valid()
      reads this
    {
      apiSearch != migratedSearch
    }

    ghost function Abs(): Merged
      reads this, apiSearch, migratedSearch
    {
      Merged(apiSearch.Abs(), if migratedSearch == null then None else Some(migratedSearch.Abs()),
             concatedFound, migratedFirstFound, waitingForTotal, isFull, newFounds, nextFounds)
    }

    constructor (hasMigrated: bool)
      ensures Valid() && fresh(apiSearch) && (migratedSearch == null || fresh(migratedSearch))
      ensures Abs() == Fresh(hasMigrated)
    {
      apiSearch := new MessagesSearch();
      var second: MessagesSearch? := null;
      if hasMigrated {
        second := new MessagesSearch();
      }
      migratedSearch := second;
      concatedFound, migratedFirstFound, waitingForTotal, isFull := NOTHING_FOUND, NOTHING_FOUND, false, false;
      newFounds, nextFounds := 0, 0;
    }

    method AddFound(data: FoundMessages)
      modifies this`concatedFound
      ensures concatedFound == old(concatedFound.(messages := concatedFound.messages + data.messages))
    {
      for i := 0 to |data.messages|
        invariant concatedFound
               == old(concatedFound).(messages := old(concatedFound.messages) + data.messages[..i])
      {
        concatedFound := concatedFound.(messages := concatedFound.messages + [data.messages[i]]);
        assert data.messages[..i + 1] == data.messages[..i] + [data.messages[i]];
      }
      assert data.messages[..|data.messages|] == data.messages;
    }

    method CheckWaitingForTotal()
      requires Valid()
      modifies this
      ensures Abs() == TotalChecked(old(Abs()))
    {
      if waitingForTotal {
        if concatedFound.total >= 0 && migratedFirstFound.total >= 0 {
          waitingForTotal := false;
          concatedFound := concatedFound.(total := concatedFound.total + migratedFirstFound.total);
          newFounds := newFounds + 1;
        }
      } else {
        newFounds := newFounds + 1;
      }
    }

    method CheckFull(data: FoundMessages)
      requires Valid()
      modifies this
      ensures Abs() == FullChecked(old(Abs()), data)
    {
      if data.total == |concatedFound.messages| {
        isFull := true;
        AddFound(migratedFirstFound);
      }
    }

    method OnMainFound(data: FoundMessages)
      requires Valid()
      modifies this
      ensures Abs() == MainFound(old(Abs()), data)
    {
      if data.nextToken == concatedFound.nextToken {
        AddFound(data);
        CheckFull(data);
        nextFounds := nextFounds + 1;
      } else {
        concatedFound := data;
        CheckFull(data);
        CheckWaitingForTotal();
      }
    }

    method OnMigratedFound(data: FoundMessages)
      requires Valid()
      modifies this
      ensures Abs() == MigratedFound(old(Abs()), data)
    {
      if isFull {
        AddFound(data);
      }
      if data.nextToken == migratedFirstFound.nextToken {
        nextFounds := nextFounds + 1;
      } else {
        migratedFirstFound := data;
        CheckWaitingForTotal();
      }
    }

    method Search(search: Request)
      requires Valid()
      modifies this, apiSearch, migratedSearch
      ensures Abs() == Started(old(Abs()), search)
    {
      if migratedSearch != null {
        waitingForTotal := true;
        var fired := migratedSearch.SearchMessages(search);
        if fired.Some? {
          OnMigratedFound(fired.value);
        }
      }
      var fired := apiSearch.SearchMessages(search);
      if fired.Some? {
        OnMainFound(fired.value);
      }
    }

    method SearchMore()
      requires Valid()
      modifies this, apiSearch, migratedSearch
      ensures Abs() == MergedStep(old(Abs()), More)
    {
      if migratedSearch != null && isFull {
        var fired := migratedSearch.SearchMore();
        if fired.Some? {
          OnMigratedFound(fired.value);
        }
      } else {
        var fired := apiSearch.SearchMore();
        if fired.Some? {
          OnMainFound(fired.value);
        }
      }
    }

    // An answer to the main search's request arrives.
    method OnMainAnswer(e: Event)
      requires Valid() && IsAnswer(apiSearch.Abs(), e)
      modifies this, apiSearch
      ensures Abs() == MergedStep(old(Abs()), FromMain(e))
    {
      var fired;
      if e.Done? {
        fired := apiSearch.OnDone(e.id, e.reply);
      } else {
        fired := apiSearch.OnFail(e.id, e.queryEmpty);
      }
      if fired.Some? {
        OnMainFound(fired.value);
      }
    }

    // An answer to the migrated search's request arrives.
    method OnMigratedAnswer(e: Event)
      requires Valid() && migratedSearch != null && IsAnswer(migratedSearch.Abs(), e)
      modifies this, migratedSearch
      ensures Abs() == MergedStep(old(Abs()), FromMigrated(e))
    {
      var fired;
      if e.Done? {
        fired := migratedSearch.OnDone(e.id, e.reply);
      } else {
        fired := migratedSearch.OnFail(e.id, e.queryEmpty);
      }
      if fired.Some? {
        OnMigratedFound(fired.value);
      }
    }
  }
}
