// Resolving pending web pages (apiwrap.cpp): due pages are gathered per channel under temporary negative
// ids, requests are sent, and the temporary ids become the requests' ids.
module WebPages {
  import opened Options

  type Page = nat
  type Channel = nat

  // The message that shows a page, as findWebPageItem finds it: its channel, if any, and its id.
  datatype Item = Item(channel: Option<Channel>, id: nat)

  // A request for messages, and the pages it was sent for.
  datatype Sent = Sent(channel: Option<Channel>, itemIds: seq<nat>, pages: set<Page>)

  // _webPagesPending; the fields pendingTill and failed of the pages; and the requests under way.
  datatype State = State(
    pending: map<Page, int>, pendingTill: map<Page, int>, failed: set<Page>,
    lastId: nat, inFlight: map<int, Sent>)

  const INITIAL := State(map[], map[], {}, 0, map[])

  function PendingTill(s: State, page: Page): int {
    if page in s.pendingTill then s.pendingTill[page] else 0
  }

  // Pages that resolveWebPages asks for at time t: not in flight, due, and shown by a known message.
  predicate Selected(s: State, items: map<Page, Item>, t: int, page: Page): (selected: bool)
    ensures selected ==> page in items
  {
    page in s.pending && s.pending[page] <= 0 && PendingTill(s, page) <= t && page in items
  }

  // The ids of the selected pages' messages in one channel, in the order the pages come in.
  function ItemIds(s: State, items: map<Page, Item>, t: int, channel: Option<Channel>, order: seq<Page>): seq<nat> {
    if order == [] then []
    else
      var page := order[|order| - 1];
      ItemIds(s, items, t, channel, order[..|order| - 1])
      + if Selected(s, items, t, page) && items[page].channel == channel then [items[page].id] else []
  }

  function PagesOf(s: State, items: map<Page, Item>, t: int, channel: Option<Channel>): set<Page> {
    set p | p in s.pending && Selected(s, items, t, p) && items[p].channel == channel
  }

  // Pages of a request that its result has not settled.
  function GivenUp(s: State, id: nat): set<Page> {
    set p | p in s.pending && s.pending[p] == id && PendingTill(s, p) > 0
  }

  lemma GivenUpMore(s: State, id: nat, rest: set<Page>, page: Page)
    requires page in rest && page in s.pending
    ensures GivenUp(s, id) - (rest - {page})
         == (GivenUp(s, id) - rest) + if s.pending[page] == id && PendingTill(s, page) > 0 then {page} else {}
  {
  }

  // The pages of one request leave, but for those in `rest`.
  function Remaining(pending: map<Page, int>, id: int, rest: set<Page>): map<Page, int> {
    map p | p in pending && (p in rest || pending[p] != id) :: pending[p]
  }

  function Zeroed(pendingTill: map<Page, int>, pages: set<Page>): map<Page, int> {
    pendingTill + map p | p in pages :: 0
  }

  // gotWebPages while the pages in `rest` have not been looked at.
  ghost predicate TakenOut(s: State, id: nat, rest: set<Page>,
                           pending: map<Page, int>, pendingTill: map<Page, int>, failed: set<Page>)
  {
    pending == Remaining(s.pending, id, rest)
    && pendingTill == Zeroed(s.pendingTill, GivenUp(s, id) - rest)
    && failed == s.failed + (GivenUp(s, id) - rest)
  }

  lemma NothingTakenOut(s: State, id: nat)
    ensures TakenOut(s, id, s.pending.Keys, s.pending, s.pendingTill, s.failed)
  {
    assert GivenUp(s, id) - s.pending.Keys == {};
  }

  lemma OneTakenOut(s: State, id: nat, rest: set<Page>,
                    pending: map<Page, int>, pendingTill: map<Page, int>, failed: set<Page>, page: Page)
    requires TakenOut(s, id, rest, pending, pendingTill, failed) && page in rest && rest <= s.pending.Keys
    ensures page in pending
    ensures var till := if page in pendingTill then pendingTill[page] else 0;
            if pending[page] != id then TakenOut(s, id, rest - {page}, pending, pendingTill, failed)
            else if till > 0 then
              TakenOut(s, id, rest - {page}, pending - {page}, pendingTill[page := 0], failed + {page})
            else TakenOut(s, id, rest - {page}, pending - {page}, pendingTill, failed)
  {
    var till := if page in pendingTill then pendingTill[page] else 0;
    assert till == PendingTill(s, page) && pending[page] == s.pending[page];
    GivenUpMore(s, id, rest, page);
    var was, now := GivenUp(s, id) - rest, GivenUp(s, id) - (rest - {page});
    if pending[page] == id {
      assert Remaining(s.pending, id, rest - {page}) == pending - {page};
      if till > 0 {
        assert now == was + {page};
        assert Zeroed(s.pendingTill, now) == pendingTill[page := 0];
      }
    } else {
      assert Remaining(s.pending, id, rest - {page}) == pending;
    }
  }

  datatype Event =
    | Delay(page: Page, till: int)          // requestWebPageDelayed for a page pending till then
    | Clear(page: Page)
    | ClearAll
    // resolveWebPages at time t: the order pages came in, and the request each channel got
    | Resolve(t: int, items: map<Page, Item>, order: seq<Page>, requests: map<Option<Channel>, nat>, lastId: nat)
    | Got(id: nat, changes: map<Page, int>) // the result, with the pendingTill values it sets
    | Failed(id: nat)                       // an error: no handler

  ghost predicate Enumerates(order: seq<Page>, pages: set<Page>) {
    (forall p :: p in order <==> p in pages)
    && (forall i, j :: 0 <= i < j < |order| ==> order[i] != order[j])
  }

  // Selected pages hold their channel's request; others keep what they have.
  function Assigned(s: State, items: map<Page, Item>, t: int, requests: map<Option<Channel>, nat>): map<Page, int> {
    map p | p in s.pending ::
      if Selected(s, items, t, p) && items[p].channel in requests then requests[items[p].channel] else s.pending[p]
  }

  ghost predicate Possible(s: State, e: Event) {
    match e
    case Delay(_, _) => true
    case Clear(_) => true
    case ClearAll => true
    case Resolve(t, items, order, requests, lastId) =>
      Enumerates(order, s.pending.Keys) && s.lastId <= lastId
      // one new request for every channel with a selected page, and for no other
      && (forall c :: c in requests <==> PagesOf(s, items, t, c) != {})
      && (forall c :: c in requests ==> s.lastId < requests[c] <= lastId)
      && (forall c, d :: c in requests && d in requests && requests[c] == requests[d] ==> c == d)
    case Got(id, _) => id in s.inFlight
    case Failed(id) => id in s.inFlight
  }

  ghost function Requests(s: State, e: Event): (sent: map<int, Sent>)
    requires e.Resolve? && Possible(s, e)
    ensures forall c :: c in e.requests ==>
              e.requests[c] in sent
              && sent[e.requests[c]]
                 == Sent(c, ItemIds(s, e.items, e.t, c, e.order), PagesOf(s, e.items, e.t, c))
    ensures forall id :: id in sent ==> exists c :: c in e.requests && e.requests[c] == id
  {
    map c | c in e.requests ::
      e.requests[c] := Sent(c, ItemIds(s, e.items, e.t, c, e.order), PagesOf(s, e.items, e.t, c))
  }

  ghost function Step(s: State, e: Event): State
    requires Possible(s, e)
  {
    match e
    case Delay(page, till) =>
      if page in s.failed || till == 0 then s
      else s.(pending := if page in s.pending then s.pending else s.pending[page := 0],
              pendingTill := s.pendingTill[page := till])
    case Clear(page) => s.(pending := s.pending - {page})
    case ClearAll => s.(pending := map[])
    case Resolve(t, items, order, requests, lastId) =>
      s.(pending := Assigned(s, items, t, requests),
         lastId := lastId,
         inFlight := s.inFlight + Requests(s, e))
    case Got(id, changes) =>
      var u := s.(pendingTill := s.pendingTill + changes);
      var waiting := GivenUp(u, id);
      u.(pending := Remaining(s.pending, id, {}),
         pendingTill := Zeroed(u.pendingTill, waiting),
         failed := s.failed + waiting,
         inFlight := s.inFlight - {id})
    case Failed(id) => s.(inFlight := s.inFlight - {id})
  }

  ghost predicate PossibleRun(s: State, es: seq<Event>)
    decreases |es|
  {
    es == [] || (Possible(s, es[0]) && PossibleRun(Step(s, es[0]), es[1..]))
  }

  ghost function Run(s: State, es: seq<Event>): State
    requires PossibleRun(s, es)
    decreases |es|
  {
    if es == [] then s else Run(Step(s, es[0]), es[1..])
  }

  // ---- What every step keeps ----

  ghost predicate Inv(s: State) {
    && (forall p :: p in s.pending ==> 0 <= s.pending[p] <= s.lastId)
    && (forall id :: id in s.inFlight ==> 0 < id <= s.lastId)
    // a page that waits for a request under way is one of those the request was sent for
    && (forall p :: p in s.pending && s.pending[p] in s.inFlight ==> p in s.inFlight[s.pending[p]].pages)
  }

  lemma StepKeepsInv(s: State, e: Event)
    requires Inv(s) && Possible(s, e)
    ensures Inv(Step(s, e))
  {
    if e.Resolve? {
      ResolveSets(s, e);
      hide Selected, ItemIds, PagesOf, Possible;
      var t := Step(s, e);
      forall p | p in t.pending
        ensures 0 <= t.pending[p] <= t.lastId
        ensures t.pending[p] in t.inFlight ==> p in t.inFlight[t.pending[p]].pages
      {
      }
      forall id | id in t.inFlight ensures 0 < id <= t.lastId {
        NewIds(s, e, id);
      }
    }
  }

  lemma NewIds(s: State, e: Event, id: nat)
    requires Inv(s) && e.Resolve? && Possible(s, e) && id in Step(s, e).inFlight
    ensures if id in s.inFlight then id <= s.lastId && Step(s, e).inFlight[id] == s.inFlight[id]
            else s.lastId < id <= e.lastId
  {
    hide Selected, ItemIds, PagesOf;
  }

  lemma {:induction false} ItemIdsHold(s: State, items: map<Page, Item>, t: int, c: Option<Channel>,
                                      order: seq<Page>, page: Page)
    requires page in order && Selected(s, items, t, page) && items[page].channel == c
    ensures items[page].id in ItemIds(s, items, t, c, order)
  {
    if page != order[|order| - 1] {
      assert page in order[..|order| - 1];
      ItemIdsHold(s, items, t, c, order[..|order| - 1], page);
    }
  }

  // After resolveWebPages every selected page holds the id of the one new request addressed to its message's
  // channel, and that request lists the message; every other page keeps what it had; no page holds a
  // temporary id.
  lemma ResolveSets(s: State, e: Event)
    requires Inv(s) && e.Resolve? && Possible(s, e)
    ensures var t := Step(s, e);
            t.pending.Keys == s.pending.Keys
            && forall p :: p in s.pending ==>
                 // not in flight, due, and shown by a known message
                 if s.pending[p] <= 0 && (p in s.pendingTill ==> s.pendingTill[p] <= e.t)
                    && (p !in s.pendingTill ==> 0 <= e.t) && p in e.items then
                   var id := t.pending[p];
                   s.lastId < id && id !in s.inFlight && id in t.inFlight
                   && t.inFlight[id].channel == e.items[p].channel
                   && e.items[p].id in t.inFlight[id].itemIds && p in t.inFlight[id].pages
                   && e.requests[e.items[p].channel] == id
                 else t.pending[p] == s.pending[p] >= 0
  {
    var t := Step(s, e);
    forall p | p in s.pending && Selected(s, e.items, e.t, p)
      ensures var c := e.items[p].channel;
              c in e.requests && e.items[p].id in ItemIds(s, e.items, e.t, c, e.order)
              && p in PagesOf(s, e.items, e.t, c)
    {
      var c := e.items[p].channel;
      assert p in PagesOf(s, e.items, e.t, c);
      ItemIdsHold(s, e.items, e.t, c, e.order, p);
    }
    hide ItemIds, PagesOf, Selected;
  }

  // The request of a channel asks for the messages of its due pages, in the order the pages come in.
  lemma {:induction false} ItemsAskedInOrder(s: State, items: map<Page, Item>, t: int, c: Option<Channel>,
                                            a: seq<Page>, b: seq<Page>)
    ensures ItemIds(s, items, t, c, a + b) == ItemIds(s, items, t, c, a) + ItemIds(s, items, t, c, b)
    decreases |b|
  {
    hide Selected;
    if b == [] {
      assert a + b == a;
    } else {
      var n := |b| - 1;
      var last := if Selected(s, items, t, b[n]) && items[b[n]].channel == c then [items[b[n]].id] else [];
      assert (a + b)[..|a + b| - 1] == a + b[..n] && (a + b)[|a + b| - 1] == b[n];
      ItemsAskedInOrder(s, items, t, c, a, b[..n]);
      assert ItemIds(s, items, t, c, a) + (ItemIds(s, items, t, c, b[..n]) + last)
             == ItemIds(s, items, t, c, a) + ItemIds(s, items, t, c, b[..n]) + last;
    }
  }

  lemma ItemOfPage(s: State, items: map<Page, Item>, t: int, c: Option<Channel>, p: Page)
    ensures ItemIds(s, items, t, c, [p])
            == if p in s.pending && s.pending[p] <= 0 && PendingTill(s, p) <= t && p in items
                  && items[p].channel == c then [items[p].id] else []
  {
    assert [p][..0] == [];
  }

  // A resolve sends one request for every channel with a due page, and changes nothing else.
  lemma ResolveSends(s: State, e: Event, c: Option<Channel>)
    requires Inv(s) && e.Resolve? && Possible(s, e)
    ensures var t := Step(s, e);
            && (c in e.requests <==>
                  exists p :: p in s.pending && s.pending[p] <= 0 && PendingTill(s, p) <= e.t && p in e.items
                              && e.items[p].channel == c)
            && (c in e.requests ==>
                  e.requests[c] in t.inFlight && e.requests[c] !in s.inFlight
                  && t.inFlight[e.requests[c]].channel == c
                  && t.inFlight[e.requests[c]].itemIds == ItemIds(s, e.items, e.t, c, e.order))
            && t.pendingTill == s.pendingTill && t.failed == s.failed
  {
    hide ItemIds;
    if p :| p in s.pending && s.pending[p] <= 0 && PendingTill(s, p) <= e.t && p in e.items && e.items[p].channel == c {
      assert p in PagesOf(s, e.items, e.t, c);
    }
    if c in e.requests {
      var p :| p in PagesOf(s, e.items, e.t, c);
      assert p in s.pending && s.pending[p] <= 0 && PendingTill(s, p) <= e.t && p in e.items && e.items[p].channel == c;
      assert e.requests[c] in Requests(s, e);
    }
  }

  // A page is put off unless it failed or waits for nothing; one that is pending keeps its request.
  lemma PageIsDelayed(s: State, page: Page, till: int)
    ensures var t := Step(s, Delay(page, till));
            if page in s.failed || till == 0 then t == s
            else
              && page in t.pending && t.pending[page] == (if page in s.pending then s.pending[page] else 0)
              && t.pendingTill == s.pendingTill[page := till] && t.failed == s.failed && t.inFlight == s.inFlight
              && forall p :: p != page ==> (p in t.pending <==> p in s.pending)
                                           && (p in s.pending ==> t.pending[p] == s.pending[p])
  {
  }

  lemma PagesAreForgotten(s: State, page: Page)
    ensures Step(s, Clear(page)).pending == s.pending - {page} && Step(s, ClearAll).pending == map[]
    ensures Step(s, Clear(page)).inFlight == Step(s, ClearAll).inFlight == s.inFlight
  {
  }

  lemma {:induction false} RunKeepsInv(s: State, es: seq<Event>)
    requires Inv(s) && PossibleRun(s, es)
    ensures Inv(Run(s, es))
    decreases |es|
  {
    hide Inv, Possible, Step;
    if es != [] {
      StepKeepsInv(s, es[0]);
      RunKeepsInv(Step(s, es[0]), es[1..]);
    }
  }

  // In every reachable state a result takes exactly its own request's pages out, and nobody else's; those
  // the result did not settle are marked as failed.
  lemma GotErasesItsOwnPages(es: seq<Event>, id: nat, changes: map<Page, int>)
    requires PossibleRun(INITIAL, es) && id in Run(INITIAL, es).inFlight
    ensures var s := Run(INITIAL, es);
            var t := Step(s, Got(id, changes));
            (forall p :: p in s.pending ==>
               if s.pending[p] == id then
                 p in s.inFlight[id].pages && p !in t.pending && PendingTill(t, p) <= 0
                 && (PendingTill(s.(pendingTill := s.pendingTill + changes), p) > 0 ==> p in t.failed)
               else p in t.pending && t.pending[p] == s.pending[p])
            && t.pending.Keys <= s.pending.Keys && t.inFlight == s.inFlight - {id}
            && (forall p :: p in s.pending && s.pending[p] != id ==>
                  PendingTill(t, p) == PendingTill(s.(pendingTill := s.pendingTill + changes), p))
            // failed are those that were failed and those of the request that are still pending for later
            && (forall p :: p in t.failed <==>
                  p in s.failed || (p in s.pending && s.pending[p] == id
                                    && PendingTill(s.(pendingTill := s.pendingTill + changes), p) > 0))
  {
    RunKeepsInv(INITIAL, es);
  }

  // A failed request has no handler: its pages keep its id. From then on no step but forgetting the page
  // touches it, so it is never asked for again.
  ghost predicate Stuck(s: State, page: Page, id: nat) {
    Inv(s) && id > 0 && id !in s.inFlight && id <= s.lastId && page in s.pending && s.pending[page] == id
  }

  predicate Forgets(e: Event, page: Page) {
    e.ClearAll? || (e.Clear? && e.page == page)
  }

  lemma FailedPageIsStuck(s: State, id: nat, page: Page)
    requires Inv(s) && id in s.inFlight && page in s.pending && s.pending[page] == id
    ensures Stuck(Step(s, Failed(id)), page, id)
  {
    StepKeepsInv(s, Failed(id));
  }

  lemma StuckStep(s: State, page: Page, id: nat, e: Event)
    requires Stuck(s, page, id) && Possible(s, e) && !Forgets(e, page)
    ensures Stuck(Step(s, e), page, id)
    ensures forall r :: r in Step(s, e).inFlight && r !in s.inFlight ==> page !in Step(s, e).inFlight[r].pages
  {
    StepKeepsInv(s, e);
    if e.Resolve? {
      forall r | r in Step(s, e).inFlight && r !in s.inFlight
        ensures page !in Step(s, e).inFlight[r].pages && r != id
      {
        NewIds(s, e, r);
        var c :| c in e.requests && e.requests[c] == r;
        assert page !in PagesOf(s, e.items, e.t, c);
      }
    }
  }

  // No request sent after the one with this id asks for the page.
  ghost predicate NotAskedSince(s: State, page: Page, id: nat) {
    forall r :: r in s.inFlight && r > id ==> page !in s.inFlight[r].pages
  }

  // Requests under way stay as they were sent.
  lemma RequestsStay(s: State, e: Event, r: nat)
    requires Inv(s) && Possible(s, e) && r in Step(s, e).inFlight
    ensures if r in s.inFlight then Step(s, e).inFlight[r] == s.inFlight[r] else r > s.lastId
  {
    if e.Resolve? {
      NewIds(s, e, r);
    }
  }

  lemma {:induction false} StuckRun(s: State, page: Page, id: nat, since: nat, es: seq<Event>)
    requires Stuck(s, page, id) && PossibleRun(s, es) && NotAskedSince(s, page, since)
    requires forall e | e in es :: !Forgets(e, page)
    ensures Stuck(Run(s, es), page, id) && NotAskedSince(Run(s, es), page, since)
    decreases |es|
  {
    hide Possible, Step, Forgets, Inv;
    if es != [] {
      var t := Step(s, es[0]);
      StuckStep(s, page, id, es[0]);
      forall r | r in t.inFlight && r > since ensures page !in t.inFlight[r].pages {
        RequestsStay(s, es[0], r);
      }
      StuckRun(t, page, id, since, es[1..]);
    }
  }

  // After every run that does not forget it the page still holds the dead request's id, and no request sent
  // since then asks for it.
  lemma StuckForever(s: State, page: Page, id: nat, es: seq<Event>)
    requires Stuck(s, page, id) && PossibleRun(s, es)
    requires forall e | e in es :: !Forgets(e, page)
    ensures var t := Run(s, es);
            && page in t.pending && t.pending[page] == id && id !in t.inFlight
            && NotAskedSince(t, page, s.lastId)
  {
    StuckRun(s, page, id, s.lastId, es);
  }

  // A run without forgetting the page that settles it or gives it a new request.
  ghost predicate Recovers(s: State, page: Page, es: seq<Event>) {
    && page in s.pending && PossibleRun(s, es)
    && (forall e :: e in es ==> !Forgets(e, page))
    && (page in Run(s, es).pending ==> Run(s, es).pending[page] != s.pending[page])
  }

  lemma {:induction false} PagesEnumerated(pages: set<Page>) returns (order: seq<Page>)
    ensures Enumerates(order, pages)
    decreases |pages|
  {
    if pages == {} {
      order := [];
    } else {
      var p :| p in pages;
      var rest := PagesEnumerated(pages - {p});
      order := rest + [p];
      forall q ensures q in order <==> q in pages {
        assert q in order <==> q in rest || q == p;
      }
    }
  }

  lemma OneEvent(s: State, e: Event)
    requires Possible(s, e)
    ensures PossibleRun(s, [e]) && Run(s, [e]) == Step(s, e)
  {
    hide Possible, Step;
    assert [e][1..] == [];
    assert PossibleRun(Step(s, e), []);
  }

  // resolveWebPages when only this page's message is known.
  function AskAlone(s: State, page: Page, t: int, order: seq<Page>): Event {
    Resolve(t, map[page := Item(None, 0)], order, map[None := s.lastId + 1], s.lastId + 1)
  }

  // A page without a request gets one as soon as it is due and its message is known.
  lemma IdlePageIsAsked(s: State, page: Page, t: int, order: seq<Page>)
    requires Inv(s) && page in s.pending && s.pending[page] == 0 && PendingTill(s, page) <= t
    requires Enumerates(order, s.pending.Keys)
    ensures var e := AskAlone(s, page, t, order);
            Possible(s, e) && Step(s, e).pending.Keys == s.pending.Keys
            && Step(s, e).pending[page] == s.lastId + 1 && s.lastId + 1 in Step(s, e).inFlight
  {
    var items := map[page := Item(None, 0)];
    var e := AskAlone(s, page, t, order);
    assert Selected(s, items, t, page);
    assert PagesOf(s, items, t, None) == {page};
    forall c | c != None ensures PagesOf(s, items, t, c) == {} {
    }
    assert Possible(s, e);
    hide PagesOf, Possible;
    assert e.requests[None] in Requests(s, e);
  }

  // A page can still be settled or asked for, without being forgotten first, exactly when it has no request
  // or its request is still under way.
  lemma PageRecoversIff(s: State, page: Page)
    requires Inv(s) && page in s.pending
    ensures (exists es :: Recovers(s, page, es)) <==> s.pending[page] == 0 || s.pending[page] in s.inFlight
  {
    hide Possible, Step, Forgets, Run;
    var id := s.pending[page];
    if id == 0 {
      var order := PagesEnumerated(s.pending.Keys);
      var e := AskAlone(s, page, PendingTill(s, page), order);
      IdlePageIsAsked(s, page, PendingTill(s, page), order);
      ForgetsNothing(e, page);
      OneEvent(s, e);
      assert Recovers(s, page, [e]);
    } else if id in s.inFlight {
      var e := Got(id, map[]);
      GotTakesPage(s, id, page);
      OneEvent(s, e);
      assert Recovers(s, page, [e]);
    } else {
      forall es | PossibleRun(s, es) && (forall e :: e in es ==> !Forgets(e, page)) ensures !Recovers(s, page, es) {
        StuckForever(s, page, id, es);
      }
    }
  }

  lemma ForgetsNothing(e: Event, page: Page)
    requires e.Resolve?
    ensures !Forgets(e, page)
  {
  }

  lemma GotTakesPage(s: State, id: nat, page: Page)
    requires id in s.inFlight && page in s.pending && s.pending[page] == id
    ensures var e := Got(id, map[]);
            Possible(s, e) && !Forgets(e, page) && page !in Step(s, e).pending
  {
  }

  // From the start: a page is asked for, and the request fails.
  lemma FailureSticks(page: Page, till: nat)
    requires till > 0
    ensures var s := State(map[page := 0], map[page := till], {}, 0, map[]);
            var es := [Delay(page, till), AskAlone(s, page, till, [page]), Failed(1)];
            PossibleRun(INITIAL, es) && Stuck(Run(INITIAL, es), page, 1)
  {
    var s := State(map[page := 0], map[page := till], {}, 0, map[]);
    var e1, e2 := Delay(page, till), AskAlone(s, page, till, [page]);
    DelayIsPossible(INITIAL, page, till);
    assert Step(INITIAL, e1) == s && Inv(s) && PendingTill(s, page) == till;
    hide Possible, Step, Stuck, Inv;
    IdlePageIsAsked(s, page, till, [page]);
    var s2 := Step(s, e2);
    StepKeepsInv(s, e2);
    FailedPageIsStuck(s2, 1, page);
    FailedIsPossible(s2, 1);
    OneEvent(s2, Failed(1));
    var es := [e1, e2, Failed(1)];
    assert es[1..] == [e2, Failed(1)] && es[1..][1..] == [Failed(1)];
    assert PossibleRun(s, [e2, Failed(1)]) && Run(s, [e2, Failed(1)]) == Step(s2, Failed(1));
  }

  lemma DelayIsPossible(s: State, page: Page, till: int)
    ensures Possible(s, Delay(page, till))
  {
  }

  lemma FailedIsPossible(s: State, id: nat)
    requires id in s.inFlight
    ensures Possible(s, Failed(id))
  {
  }

  // ---- The object ----

  // idsByChannel: a channel's index and the ids of its messages.
  type IdsByChannel = map<Channel, (nat, seq<nat>)>

  const INT_MAX := 0x7FFF_FFFF

  // The temporary id of a channel's pages.
  function TemporaryId(byChannel: IdsByChannel, channel: Option<Channel>): int
    requires channel.Some? ==> channel.value in byChannel
  {
    if channel.None? then -1
    else
      var index: int := byChannel[channel.value].0;
      -index - 2
  }

  // Indices number the channels: -index - 2 is in range, and no two channels share it.
  ghost predicate Indexed(byChannel: IdsByChannel) {
    (forall c :: c in byChannel ==> byChannel[c].0 < |byChannel|)
    && (forall c, d :: c in byChannel && d in byChannel && byChannel[c].0 == byChannel[d].0 ==> c == d)
  }

  // The lists gathered from the pages in `order`.
  ghost predicate Gathered(s: State, items: map<Page, Item>, t: int, order: seq<Page>,
                           ids: seq<nat>, byChannel: IdsByChannel)
  {
    && ids == ItemIds(s, items, t, None, order)
    && (forall c :: c in byChannel ==> byChannel[c].1 == ItemIds(s, items, t, Some(c), order) != [])
    && (forall c :: c !in byChannel ==> ItemIds(s, items, t, Some(c), order) == [])
  }

  // What a page holds once it was seen.
  ghost predicate Marked(s: State, items: map<Page, Item>, t: int, byChannel: IdsByChannel, page: Page, id: int) {
    page in s.pending
    && if Selected(s, items, t, page) then
         (items[page].channel.Some? ==> items[page].channel.value in byChannel)
         && id == TemporaryId(byChannel, items[page].channel)
       else id == s.pending[page]
  }

  // The shortest wait of a page that is not due yet, or INT_MAX.
  ghost predicate ShortestWait(s: State, t: int, order: seq<Page>, m: int) {
    && (forall p :: p in order && p in s.pending && s.pending[p] <= 0 && PendingTill(s, p) > t
                    ==> m <= PendingTill(s, p) - t)
    && m <= INT_MAX
    && (m == INT_MAX || exists p :: p in order && p in s.pending && s.pending[p] <= 0 && PendingTill(s, p) > t
                                    && m == PendingTill(s, p) - t)
  }

  lemma ItemIdsOfMore(s: State, items: map<Page, Item>, t: int, c: Option<Channel>, order: seq<Page>, page: Page)
    ensures ItemIds(s, items, t, c, order + [page])
         == ItemIds(s, items, t, c, order)
            + if Selected(s, items, t, page) && items[page].channel == c then [items[page].id] else []
  {
    assert (order + [page])[..|order|] == order;
  }

  // One more selected page: its message joins its channel's list.
  function Joined(byChannel: IdsByChannel, channel: Channel, id: nat): IdsByChannel {
    if channel in byChannel then byChannel[channel := (byChannel[channel].0, byChannel[channel].1 + [id])]
    else byChannel[channel := (|byChannel|, [id])]
  }

  lemma JoinedKeepsIndices(byChannel: IdsByChannel, channel: Channel, id: nat)
    requires Indexed(byChannel)
    ensures Indexed(Joined(byChannel, channel, id))
    ensures channel in Joined(byChannel, channel, id)
    ensures forall c :: c in byChannel ==>
              c in Joined(byChannel, channel, id) && Joined(byChannel, channel, id)[c].0 == byChannel[c].0
  {
    var joined := Joined(byChannel, channel, id);
    if channel in byChannel {
      assert joined.Keys == byChannel.Keys;
      assert |joined.Keys| == |byChannel.Keys|;
      assert forall c :: c in joined ==> joined[c].0 == byChannel[c].0;
    } else {
      assert joined.Keys == byChannel.Keys + {channel};
      assert |joined.Keys| == |byChannel.Keys| + 1;
      assert forall c :: c in byChannel ==> joined[c] == byChannel[c];
      assert joined[channel].0 == |byChannel|;
    }
  }

  lemma EnumeratesMore(order: seq<Page>, pages: set<Page>, page: Page)
    requires Enumerates(order, pages) && page !in pages
    ensures Enumerates(order + [page], pages + {page})
  {
  }

  lemma PageGathered(s: State, items: map<Page, Item>, t: int, order: seq<Page>,
                     ids: seq<nat>, byChannel: IdsByChannel, page: Page)
    requires Gathered(s, items, t, order, ids, byChannel)
    ensures if !Selected(s, items, t, page) then Gathered(s, items, t, order + [page], ids, byChannel)
            else if items[page].channel.None? then
              Gathered(s, items, t, order + [page], ids + [items[page].id], byChannel)
            else
              Gathered(s, items, t, order + [page], ids,
                       Joined(byChannel, items[page].channel.value, items[page].id))
  {
    hide ItemIds, Selected;
    forall c ensures ItemIds(s, items, t, c, order + [page])
                  == ItemIds(s, items, t, c, order)
                     + if Selected(s, items, t, page) && items[page].channel == c then [items[page].id] else []
    {
      ItemIdsOfMore(s, items, t, c, order, page);
    }
  }

  lemma MarksStay(s: State, items: map<Page, Item>, t: int, byChannel: IdsByChannel, more: IdsByChannel)
    requires forall c :: c in byChannel ==> c in more && more[c].0 == byChannel[c].0
    ensures forall p, id :: Marked(s, items, t, byChannel, p, id) ==> Marked(s, items, t, more, p, id)
  {
  }

  lemma NothingGathered(s: State, items: map<Page, Item>, t: int)
    ensures Gathered(s, items, t, [], [], map[])
  {
  }

  lemma MoreWait(s: State, t: int, order: seq<Page>, m: int, page: Page)
    requires ShortestWait(s, t, order, m)
    ensures var till := PendingTill(s, page);
            ShortestWait(s, t, order + [page],
              if page in s.pending && s.pending[page] <= 0 && till > t && till - t < m then till - t else m)
  {
    var till := PendingTill(s, page);
    if page in s.pending && s.pending[page] <= 0 && till > t && till - t < m {
      assert page in order + [page];
    } else if m != INT_MAX {
      var p :| p in order && p in s.pending && s.pending[p] <= 0 && PendingTill(s, p) > t && m == PendingTill(s, p) - t;
      assert p in order + [page];
    }
  }

  // Whether a channel's list, as gathered, has messages.
  predicate HasList(ids: seq<nat>, byChannel: IdsByChannel, c: Option<Channel>) {
    match c
    case None => ids != []
    case Some(d) => d in byChannel
  }

  // The requests sent so far: all but those of the channels in `rest`.
  ghost predicate SentLists(ids: seq<nat>, byChannel: IdsByChannel, rest: set<Channel>,
                            requests: map<Option<Channel>, nat>, requestId: nat, reqsByIndex: seq<nat>)
  {
    && |reqsByIndex| == |byChannel| && Indexed(byChannel)
    && (forall c :: c in requests <==> HasList(ids, byChannel, c) && (c.Some? ==> c.value !in rest))
    && (None in requests ==> requestId == requests[None])
    && (forall c :: c in byChannel && c !in rest ==>
          Some(c) in requests && reqsByIndex[byChannel[c].0] == requests[Some(c)])
  }

  lemma NoListSent(ids: seq<nat>, byChannel: IdsByChannel, requests: map<Option<Channel>, nat>, requestId: nat,
                   reqsByIndex: seq<nat>)
    requires |reqsByIndex| == |byChannel| && Indexed(byChannel)
    requires requests == if ids == [] then map[] else map[None := requestId]
    ensures SentLists(ids, byChannel, byChannel.Keys, requests, requestId, reqsByIndex)
  {
  }

  lemma GatheredOutside(r: Round, ids: seq<nat>, byChannel: IdsByChannel)
    requires Gathered(r.s, r.items, r.t, r.order, ids, byChannel)
    ensures ids == ItemIds(r.s, r.items, r.t, None, r.order)
  {
  }

  lemma GatheredOf(r: Round, ids: seq<nat>, byChannel: IdsByChannel, channel: Channel)
    requires Gathered(r.s, r.items, r.t, r.order, ids, byChannel) && channel in byChannel
    ensures byChannel[channel].1 == ItemIds(r.s, r.items, r.t, Some(channel), r.order)
  {
    hide ItemIds;
  }

  lemma OneMoreList(ids: seq<nat>, byChannel: IdsByChannel, rest: set<Channel>,
                    requests: map<Option<Channel>, nat>, requestId: nat, reqsByIndex: seq<nat>, channel: Channel, id: nat)
    requires SentLists(ids, byChannel, rest, requests, requestId, reqsByIndex)
    requires channel in rest && rest <= byChannel.Keys
    ensures byChannel[channel].0 < |reqsByIndex| && Some(channel) !in requests
    ensures SentLists(ids, byChannel, rest - {channel}, requests[Some(channel) := id], requestId,
                      reqsByIndex[byChannel[channel].0 := id])
  {
  }

  lemma AllListsSent(ids: seq<nat>, byChannel: IdsByChannel, requests: map<Option<Channel>, nat>, requestId: nat,
                     reqsByIndex: seq<nat>)
    requires SentLists(ids, byChannel, {}, requests, requestId, reqsByIndex)
    ensures forall c :: c in requests <==> HasList(ids, byChannel, c)
    ensures None in requests ==> requestId == requests[None]
    ensures forall c :: c in byChannel ==>
              Some(c) in requests && byChannel[c].0 < |reqsByIndex| && reqsByIndex[byChannel[c].0] == requests[Some(c)]
  {
  }

  lemma AssignedKeys(r: Round, requests: map<Option<Channel>, nat>)
    ensures Assigned(r.s, r.items, r.t, requests).Keys == r.s.pending.Keys
  {
  }

  // With no request, no page was selected, and every page keeps what it had.
  lemma NothingToStore(r: Round, byChannel: IdsByChannel, requests: map<Option<Channel>, nat>, now: map<Page, int>)
    requires now.Keys == r.s.pending.Keys && requests == map[]
    requires forall p :: p in r.s.pending ==> Marked(r.s, r.items, r.t, byChannel, p, now[p])
    requires forall p :: p in r.s.pending && Selected(r.s, r.items, r.t, p) ==> r.items[p].channel in requests
    ensures now == Assigned(r.s, r.items, r.t, requests)
  {
  }

  lemma NoLists(ids: seq<nat>, byChannel: IdsByChannel, requests: map<Option<Channel>, nat>)
    requires ids == [] && |byChannel| == 0
    requires forall c :: c in requests <==> HasList(ids, byChannel, c)
    ensures requests == map[]
  {
    assert forall c :: c !in byChannel;
  }

  lemma PendingIsNatural(s: State)
    requires Inv(s)
    ensures forall p :: p in s.pending ==> s.pending[p] >= 0
  {
  }

  // A page's temporary id translated is what the page should hold.
  lemma TemporaryIdIsRight(r: Round, byChannel: IdsByChannel, requestId: nat, reqsByIndex: seq<nat>,
                           requests: map<Option<Channel>, nat>, page: Page, id: int)
    requires Marked(r.s, r.items, r.t, byChannel, page, id) && r.s.pending[page] >= 0
    requires Selected(r.s, r.items, r.t, page) ==> r.items[page].channel in requests
    requires Indexed(byChannel) && |reqsByIndex| == |byChannel|
    requires None in requests ==> requestId == requests[None]
    requires forall c :: c in byChannel ==> Some(c) in requests && reqsByIndex[byChannel[c].0] == requests[Some(c)]
    ensures var final := Assigned(r.s, r.items, r.t, requests)[page];
            if id >= 0 then final == id
            else if id == -1 then final == requestId
            else -id - 2 < |reqsByIndex| && final == reqsByIndex[-id - 2]
  {
  }

  class ApiWrap {
    var webPagesPending: map<Page, int>
    var pendingTill: map<Page, int>
    var failed: set<Page>
    var lastId: nat
    ghost var inFlight: map<int, Sent>

    ghost function Abs(): State
      reads this
    {
      State(webPagesPending, pendingTill, failed, lastId, inFlight)
    }

    // One pass of the first loop of resolveWebPages.
    method SeePage(t: int, items: map<Page, Item>, page: Page, ids: seq<nat>, idsByChannel: IdsByChannel, m: int,
        ghost s: State, ghost order: seq<Page>) returns (newIds: seq<nat>, newByChannel: IdsByChannel, newM: int)
      requires page in webPagesPending && page in s.pending && webPagesPending[page] == s.pending[page]
      requires pendingTill == s.pendingTill
      requires Gathered(s, items, t, order, ids, idsByChannel) && Indexed(idsByChannel) && ShortestWait(s, t, order, m)
      modifies this`webPagesPending
      ensures page in webPagesPending && webPagesPending == old(webPagesPending)[page := webPagesPending[page]]
      ensures Marked(s, items, t, newByChannel, page, webPagesPending[page])
      ensures forall p, id :: Marked(s, items, t, idsByChannel, p, id) ==> Marked(s, items, t, newByChannel, p, id)
      ensures Gathered(s, items, t, order + [page], newIds, newByChannel) && Indexed(newByChannel)
      ensures ShortestWait(s, t, order + [page], newM)
    {
      hide Gathered, Indexed, ShortestWait, Joined;
      PageGathered(s, items, t, order, ids, idsByChannel, page);
      MoreWait(s, t, order, m, page);
      newIds, newByChannel, newM := ids, idsByChannel, m;
      if webPagesPending[page] > 0 {
        return;
      }
      var till := if page in pendingTill then pendingTill[page] else 0;
      if till <= t {
        if page in items {
          var item := items[page];
          if item.channel.Some? {
            JoinedKeepsIndices(idsByChannel, item.channel.value, item.id);
            MarksStay(s, items, t, idsByChannel, Joined(idsByChannel, item.channel.value, item.id));
            newByChannel := Joined(idsByChannel, item.channel.value, item.id);
            var index: int := newByChannel[item.channel.value].0;
            webPagesPending := webPagesPending[page := -index - 2];
          } else {
            newIds := ids + [item.id];
            webPagesPending := webPagesPending[page := -1];
          }
        }
      } else if till - t < m {
        newM := till - t;
      }
    }

    // The first loop of resolveWebPages: due pages get temporary ids.
    method GatherPages(t: int, items: map<Page, Item>)
      returns (ids: seq<nat>, idsByChannel: IdsByChannel, m: int, ghost order: seq<Page>)
      modifies this`webPagesPending
      ensures Enumerates(order, old(webPagesPending.Keys)) && webPagesPending.Keys == old(webPagesPending.Keys)
      ensures Gathered(old(Abs()), items, t, order, ids, idsByChannel) && Indexed(idsByChannel)
      ensures forall p :: p in webPagesPending ==> Marked(old(Abs()), items, t, idsByChannel, p, webPagesPending[p])
      ensures ShortestWait(old(Abs()), t, order, m)
    {
      hide Gathered, Indexed, ShortestWait, Marked, Enumerates;
      ghost var s := Abs();
      assert Enumerates([], {}) by {
        EnumeratesNothing();
      }
      ids, idsByChannel, m, order := [], map[], INT_MAX, [];
      NothingGathered(s, items, t);
      var rest := webPagesPending.Keys;
      assert Indexed(idsByChannel) && ShortestWait(s, t, order, m) by {
        NothingIndexed(s, t);
      }
      assert s.pending.Keys - rest == {};
      while rest != {}
        invariant rest <= webPagesPending.Keys == s.pending.Keys
        invariant Enumerates(order, s.pending.Keys - rest)
        invariant forall p :: p in rest ==> webPagesPending[p] == s.pending[p]
        invariant forall p :: p in s.pending && p !in rest ==> Marked(s, items, t, idsByChannel, p, webPagesPending[p])
        invariant Gathered(s, items, t, order, ids, idsByChannel) && Indexed(idsByChannel)
        invariant ShortestWait(s, t, order, m)
        decreases |rest|
      {
        var page :| page in rest;
        EnumeratesMore(order, s.pending.Keys - rest, page);
        assert s.pending.Keys - rest + {page} == s.pending.Keys - (rest - {page});
        rest := rest - {page};
        ids, idsByChannel, m := SeePage(t, items, page, ids, idsByChannel, m, s, order);
        order := order + [page];
      }
      assert s.pending.Keys - rest == s.pending.Keys;
    }

    // One request, which joins those sent since state `s`.
    method SendRequest(channel: Option<Channel>, itemIds: seq<nat>, ghost r: Round, ghost requests: map<Option<Channel>, nat>)
      returns (id: nat)
      requires SentSince(r, requests, lastId, inFlight) && channel !in requests
      requires itemIds == ItemIds(r.s, r.items, r.t, channel, r.order)
      modifies this`lastId, this`inFlight
      ensures id == lastId == old(lastId) + 1
      ensures SentSince(r, requests[channel := id], lastId, inFlight)
    {
      hide SentSince, ItemIds, PagesOf;
      MoreSent(r, requests, lastId, inFlight, channel);
      lastId := lastId + 1;
      id := lastId;
      inFlight := inFlight[id := Sent(channel, itemIds, PagesOf(r.s, r.items, r.t, channel))];
    }

    // The requests of resolveWebPages: one for the messages outside channels, one for each channel.
    method SendRequests(ids: seq<nat>, idsByChannel: IdsByChannel, ghost r: Round)
      returns (requestId: nat, reqsByIndex: seq<nat>, ghost requests: map<Option<Channel>, nat>)
      requires Gathered(r.s, r.items, r.t, r.order, ids, idsByChannel) && Indexed(idsByChannel)
      requires SentSince(r, map[], lastId, inFlight)
      modifies this`lastId, this`inFlight
      ensures SentSince(r, requests, lastId, inFlight) && |reqsByIndex| == |idsByChannel|
      ensures forall c :: c in requests <==> HasList(ids, idsByChannel, c)
      ensures None in requests ==> requestId == requests[None]
      ensures forall c :: c in idsByChannel ==> Some(c) in requests && reqsByIndex[idsByChannel[c].0] == requests[Some(c)]
    {
      hide SentSince, ItemIds, PagesOf, Selected, SentLists, Gathered, Indexed, HasList;
      requests := map[];
      requestId := 0;
      GatheredOutside(r, ids, idsByChannel);
      if ids != [] {
        requestId := SendRequest(None, ids, r, requests);
        requests := requests[None := requestId];
      }
      reqsByIndex := seq(|idsByChannel|, i => 0);
      var rest := idsByChannel.Keys;
      NoListSent(ids, idsByChannel, requests, requestId, reqsByIndex);
      while rest != {}
        invariant rest <= idsByChannel.Keys && |reqsByIndex| == |idsByChannel|
        invariant SentSince(r, requests, lastId, inFlight)
        invariant SentLists(ids, idsByChannel, rest, requests, requestId, reqsByIndex)
        decreases |rest|
      {
        var channel :| channel in rest;
        var (index, itemIds) := idsByChannel[channel];
        GatheredOf(r, ids, idsByChannel, channel);
        OneMoreList(ids, idsByChannel, rest, requests, requestId, reqsByIndex, channel, lastId + 1);
        rest := rest - {channel};
        var id := SendRequest(Some(channel), itemIds, r, requests);
        requests := requests[Some(channel) := id];
        reqsByIndex := reqsByIndex[index := id];
      }
      AllListsSent(ids, idsByChannel, requests, requestId, reqsByIndex);
    }

    // The last loop of resolveWebPages: temporary ids become request ids.
    method StoreRequestIds(idsByChannel: IdsByChannel, requestId: nat, reqsByIndex: seq<nat>,
        ghost r: Round, ghost requests: map<Option<Channel>, nat>)
      requires webPagesPending.Keys == r.s.pending.Keys && Indexed(idsByChannel) && |reqsByIndex| == |idsByChannel|
      requires forall p :: p in r.s.pending ==> r.s.pending[p] >= 0
      requires forall p :: p in r.s.pending ==> Marked(r.s, r.items, r.t, idsByChannel, p, webPagesPending[p])
      requires forall p :: p in r.s.pending && Selected(r.s, r.items, r.t, p) ==> r.items[p].channel in requests
      requires None in requests ==> requestId == requests[None]
      requires forall c :: c in idsByChannel ==> Some(c) in requests && reqsByIndex[idsByChannel[c].0] == requests[Some(c)]
      modifies this`webPagesPending
      ensures webPagesPending == Assigned(r.s, r.items, r.t, requests)
    {
      hide Marked, Indexed, Assigned, Selected;
      AssignedKeys(r, requests);
      ghost var s, final := r.s, Assigned(r.s, r.items, r.t, requests);
      var rest := webPagesPending.Keys;
      while rest != {}
        invariant rest <= webPagesPending.Keys == s.pending.Keys
        invariant forall p :: p in rest ==> Marked(s, r.items, r.t, idsByChannel, p, webPagesPending[p])
        invariant forall p :: p in s.pending && p !in rest ==> webPagesPending[p] == final[p]
        decreases |rest|
      {
        var page :| page in rest;
        rest := rest - {page};
        var id := webPagesPending[page];
        TemporaryIdIsRight(r, idsByChannel, requestId, reqsByIndex, requests, page, id);
        if id > 0 {
          continue;
        } else if id < 0 {
          if id == -1 {
            webPagesPending := webPagesPending[page := requestId];
          } else {
            webPagesPending := webPagesPending[page := reqsByIndex[-id - 2]];
          }
        }
      }
    }

    // The second half of resolveWebPages: requests, then their ids in the place of the temporary ones.
    method SendAndStore(ids: seq<nat>, idsByChannel: IdsByChannel, ghost r: Round)
      returns (ghost requests: map<Option<Channel>, nat>)
      requires Inv(r.s) && Enumerates(r.order, r.s.pending.Keys)
      requires Gathered(r.s, r.items, r.t, r.order, ids, idsByChannel) && Indexed(idsByChannel)
      requires webPagesPending.Keys == r.s.pending.Keys && lastId == r.s.lastId && inFlight == r.s.inFlight
      requires forall p :: p in r.s.pending ==> Marked(r.s, r.items, r.t, idsByChannel, p, webPagesPending[p])
      modifies this`webPagesPending, this`lastId, this`inFlight
      ensures webPagesPending == Assigned(r.s, r.items, r.t, requests)
      ensures var e := Resolve(r.t, r.items, r.order, requests, lastId);
              Possible(r.s, e) && inFlight == r.s.inFlight + Requests(r.s, e)
    {
      hide Inv, Possible, ItemIds, SentSince, Marked, Gathered, Indexed, Enumerates, HasList, Selected, Assigned;
      NothingSent(r);
      var requestId, reqsByIndex;
      requestId, reqsByIndex, requests := SendRequests(ids, idsByChannel, r);
      forall c ensures HasList(ids, idsByChannel, c) <==> ItemIds(r.s, r.items, r.t, c, r.order) != [] {
        ListsAreItemIds(r, ids, idsByChannel, c);
      }
      SentIsPossible(r, requests, lastId, inFlight);
      SelectedHaveRequests(r, requests);
      PendingIsNatural(r.s);
      if ids != [] || reqsByIndex != [] {
        StoreRequestIds(idsByChannel, requestId, reqsByIndex, r, requests);
      } else {
        NoLists(ids, idsByChannel, requests);
        NothingToStore(r, idsByChannel, requests, webPagesPending);
      }
    }

    method ResolveWebPages(t: int, items: map<Page, Item>) returns (timer: Option<int>, ghost e: Event)
      requires Inv(Abs())
      modifies this
      ensures Inv(Abs())
      ensures e.Resolve? && e.t == t && e.items == items
      ensures Possible(old(Abs()), e) && Abs() == Step(old(Abs()), e)
      ensures exists m :: ShortestWait(old(Abs()), t, e.order, m)
                && timer == if m < INT_MAX then Some((if m < 86400 then m else 86400) * 1000) else None
    {
      hide Inv, Possible, ShortestWait, Marked, Gathered, Indexed, Enumerates, Assigned, Requests;
      ghost var s := Abs();
      var ids, idsByChannel, m;
      ghost var order, requests;
      ids, idsByChannel, m, order := GatherPages(t, items);
      requests := SendAndStore(ids, idsByChannel, Round(s, items, t, order));
      e := Resolve(t, items, order, requests, lastId);
      StepKeepsInv(s, e);
      timer := None;
      if m < INT_MAX {
        timer := Some((if m < 86400 then m else 86400) * 1000);
      }
    }

    // The loop of gotWebPages: the request's pages leave, and those not settled are given up.
    method TakeOut(req: nat)
      modifies this`webPagesPending, this`pendingTill, this`failed
      ensures webPagesPending == Remaining(old(webPagesPending), req, {})
      ensures pendingTill == Zeroed(old(pendingTill), GivenUp(old(Abs()), req))
      ensures failed == old(failed) + GivenUp(old(Abs()), req)
    {
      ghost var s := Abs();
      var rest := webPagesPending.Keys;
      NothingTakenOut(s, req);
      while rest != {}
        invariant rest <= s.pending.Keys
        invariant TakenOut(s, req, rest, webPagesPending, pendingTill, failed)
        decreases |rest|
      {
        hide TakenOut;
        var page :| page in rest;
        OneTakenOut(s, req, rest, webPagesPending, pendingTill, failed, page);
        rest := rest - {page};
        if webPagesPending[page] == req {
          var till := if page in pendingTill then pendingTill[page] else 0;
          if till > 0 {
            pendingTill := pendingTill[page := 0];
            failed := failed + {page};
          }
          webPagesPending := webPagesPending - {page};
        }
      }
      assert GivenUp(s, req) - {} == GivenUp(s, req);
    }

    // The result of a request: ApplyChanges sets some pages' pendingTill first.
    method GotWebPages(req: nat, changes: map<Page, int>)
      requires req in inFlight
      modifies this
      ensures Abs() == Step(old(Abs()), Got(req, changes))
    {
      pendingTill := pendingTill + changes;
      ghost var u := Abs();
      TakeOut(req);
      inFlight := inFlight - {req};
      assert GivenUp(u, req) == GivenUp(old(Abs()).(pendingTill := u.pendingTill), req);
    }

    method RequestWebPageDelayed(page: Page, till: int)
      modifies this
      ensures Abs() == Step(old(Abs()), Delay(page, till))
    {
      if page in failed || till == 0 {
        return;
      }
      pendingTill := pendingTill[page := till];
      if page !in webPagesPending {
        webPagesPending := webPagesPending[page := 0];
      }
    }

    method ClearWebPageRequest(page: Page)
      modifies this`webPagesPending
      ensures Abs() == Step(old(Abs()), Clear(page))
    {
      webPagesPending := webPagesPending - {page};
    }

    method ClearWebPageRequests()
      modifies this`webPagesPending
      ensures Abs() == Step(old(Abs()), ClearAll)
    {
      webPagesPending := map[];
    }
  }

  // What one call of resolveWebPages works from.
  datatype Round = Round(s: State, items: map<Page, Item>, t: int, order: seq<Page>)

  // The requests sent since the round began: new ids, all different, each listing its channel's messages.
  ghost predicate SentSince(r: Round, requests: map<Option<Channel>, nat>, last: nat, now: map<int, Sent>) {
    && r.s.lastId <= last
    && (forall c :: c in requests ==>
          r.s.lastId < requests[c] <= last && requests[c] in now
          && now[requests[c]]
             == Sent(c, ItemIds(r.s, r.items, r.t, c, r.order), PagesOf(r.s, r.items, r.t, c)))
    && (forall c, d :: c in requests && d in requests && requests[c] == requests[d] ==> c == d)
    && (forall id :: id in r.s.inFlight ==> id <= r.s.lastId && id in now && now[id] == r.s.inFlight[id])
    && (forall id :: id in now ==> id in r.s.inFlight || exists c :: c in requests && requests[c] == id)
  }

  lemma {:induction false} ItemIdsComeFromPages(s: State, items: map<Page, Item>, t: int, c: Option<Channel>, order: seq<Page>)
    requires ItemIds(s, items, t, c, order) != []
    ensures exists p :: p in order && Selected(s, items, t, p) && items[p].channel == c
  {
    var page := order[|order| - 1];
    if !(Selected(s, items, t, page) && items[page].channel == c) {
      ItemIdsComeFromPages(s, items, t, c, order[..|order| - 1]);
    }
  }

  lemma ItemIdsOfPages(r: Round, c: Option<Channel>)
    requires Enumerates(r.order, r.s.pending.Keys)
    ensures ItemIds(r.s, r.items, r.t, c, r.order) != [] <==> PagesOf(r.s, r.items, r.t, c) != {}
  {
    if ItemIds(r.s, r.items, r.t, c, r.order) != [] {
      ItemIdsComeFromPages(r.s, r.items, r.t, c, r.order);
      var p :| p in r.order && Selected(r.s, r.items, r.t, p) && r.items[p].channel == c;
      assert p in PagesOf(r.s, r.items, r.t, c);
    }
    if p :| p in PagesOf(r.s, r.items, r.t, c) {
      ItemIdsHold(r.s, r.items, r.t, c, r.order, p);
    }
  }

  lemma ListsAreItemIds(r: Round, ids: seq<nat>, byChannel: IdsByChannel, c: Option<Channel>)
    requires Gathered(r.s, r.items, r.t, r.order, ids, byChannel)
    ensures HasList(ids, byChannel, c) <==> ItemIds(r.s, r.items, r.t, c, r.order) != []
  {
    hide ItemIds;
  }

  lemma SentIsPossible(r: Round, requests: map<Option<Channel>, nat>, last: nat, now: map<int, Sent>)
    requires Enumerates(r.order, r.s.pending.Keys) && SentSince(r, requests, last, now)
    requires forall c: Option<Channel> :: c in requests <==> ItemIds(r.s, r.items, r.t, c, r.order) != []
    ensures var e := Resolve(r.t, r.items, r.order, requests, last);
            Possible(r.s, e) && now == r.s.inFlight + Requests(r.s, e)
  {
    hide ItemIds, PagesOf, Enumerates;
    forall c: Option<Channel>
      ensures ItemIds(r.s, r.items, r.t, c, r.order) != [] <==> PagesOf(r.s, r.items, r.t, c) != {}
    {
      ItemIdsOfPages(r, c);
    }
    SentAreRequests(r, requests, last, now);
  }

  lemma SentAreRequests(r: Round, requests: map<Option<Channel>, nat>, last: nat, now: map<int, Sent>)
    requires SentSince(r, requests, last, now) && Possible(r.s, Resolve(r.t, r.items, r.order, requests, last))
    ensures now == r.s.inFlight + Requests(r.s, Resolve(r.t, r.items, r.order, requests, last))
  {
    hide ItemIds, PagesOf, Possible;
    var new_ := Requests(r.s, Resolve(r.t, r.items, r.order, requests, last));
    forall id ensures id in now <==> id in r.s.inFlight + new_ {
    }
    forall id | id in now ensures now[id] == (r.s.inFlight + new_)[id] {
      if c :| c in requests && requests[c] == id {
        assert now[id] == new_[id];
      }
    }
  }

  lemma SelectedHaveRequests(r: Round, requests: map<Option<Channel>, nat>)
    requires Enumerates(r.order, r.s.pending.Keys)
    requires forall c: Option<Channel> :: c in requests <==> ItemIds(r.s, r.items, r.t, c, r.order) != []
    ensures forall p :: p in r.s.pending && Selected(r.s, r.items, r.t, p) ==> r.items[p].channel in requests
  {
    forall p | p in r.s.pending && Selected(r.s, r.items, r.t, p) ensures r.items[p].channel in requests {
      ItemIdsHold(r.s, r.items, r.t, r.items[p].channel, r.order, p);
    }
  }

  lemma NothingSent(r: Round)
    requires Inv(r.s)
    ensures SentSince(r, map[], r.s.lastId, r.s.inFlight)
  {
  }

  lemma MoreSent(r: Round, requests: map<Option<Channel>, nat>, last: nat, now: map<int, Sent>, channel: Option<Channel>)
    requires SentSince(r, requests, last, now) && channel !in requests
    ensures SentSince(r, requests[channel := last + 1], last + 1,
                      now[last + 1 := Sent(channel, ItemIds(r.s, r.items, r.t, channel, r.order),
                                           PagesOf(r.s, r.items, r.t, channel))])
  {
    hide ItemIds, PagesOf;
    var more := requests[channel := last + 1];
    assert more[channel] == last + 1;
    assert forall c :: c in requests ==> c in more && more[c] == requests[c];
  }

  lemma EnumeratesNothing()
    ensures Enumerates([], {})
  {
  }

  lemma NothingIndexed(s: State, t: int)
    ensures Indexed(map[]) && ShortestWait(s, t, [], INT_MAX)
  {
  }
}
