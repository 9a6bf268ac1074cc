// One search in one history (api_messages_search.cpp): requests, stale replies, and the first-page cache.
module Search {
  import opened Options
  import opened SearchToken

  // A message of a reply; one whose peer is not loaded or that has no date is skipped.
  datatype Item = Item(id: nat, usable: bool)

  // MTPmessages_Messages
  datatype Reply =
    | Messages(items: seq<Item>)
    | MessagesSlice(items: seq<Item>, count: nat)
    | ChannelMessages(items: seq<Item>, count: nat)
    | NotModified

  datatype FoundMessages = FoundMessages(total: int, messages: seq<nat>, nextToken: string)

  const NOTHING_FOUND := FoundMessages(-1, [], "")

  function UsableIds(items: seq<Item>): seq<nat> {
    if items == [] then []
    else (if items[0].usable then [items[0].id] else []) + UsableIds(items[1..])
  }

  function Parsed(reply: Reply, token: string): FoundMessages {
    match reply
    case Messages(items) => FoundMessages(|items|, UsableIds(items), token)
    case MessagesSlice(items, count) => FoundMessages(count, UsableIds(items), token)
    case ChannelMessages(items, count) => FoundMessages(count, UsableIds(items), token)
    case NotModified => NOTHING_FOUND
  }

  // A request as it went to the server.
  datatype Sent = Sent(request: Request, offsetId: nat, token: string)

  datatype Answer = Answer(sent: Sent, reply: Reply)

  // The object's fields; then the world around it: the requests under way, by id, the replies that came
  // back, and everything published so far.
  datatype State = State(
    request: Request, offsetId: nat, cacheOfStartByToken: map<string, Reply>,
    requestId: nat, searchInHistoryRequest: nat,
    lastId: nat, inFlight: map<nat, Sent>, answered: seq<Answer>, published: seq<FoundMessages>)

  datatype Event =
    | SearchMessages(request: Request)
    | SearchMore
    | Done(id: nat, reply: Reply)
    | Fail(id: nat, queryEmpty: bool)

  const NO_REQUEST := Request("", None, [], 0)

  const INITIAL := State(NO_REQUEST, 0, map[], 0, 0, 0, map[], [], [])

  // Replies come only for requests under way, and each once.
  predicate Possible(s: State, e: Event) {
    (e.Done? ==> e.id in s.inFlight) && (e.Fail? ==> e.id in s.inFlight)
  }

  function LastOr0(ids: seq<nat>): nat {
    if ids == [] then 0 else ids[|ids| - 1]
  }

  // searchReceived for a reply that is not stale.
  function Received(s: State, reply: Reply, token: string): State {
    var found := Parsed(reply, token);
    s.(cacheOfStartByToken := if s.offsetId == 0 && token !in s.cacheOfStartByToken
                              then s.cacheOfStartByToken[token := reply] else s.cacheOfStartByToken,
       requestId := 0,
       offsetId := LastOr0(found.messages),
       published := s.published + [found])
  }

  // searchRequest
  function Requested(s: State): State {
    var token := Token(s.request);
    if s.offsetId == 0 && token in s.cacheOfStartByToken then
      Received(s, s.cacheOfStartByToken[token], token)
    else
      var id := s.lastId + 1;
      s.(lastId := id, requestId := id, searchInHistoryRequest := id,
         inFlight := s.inFlight[id := Sent(s.request, s.offsetId, token)])
  }

  function Step(s: State, e: Event): State
    requires Possible(s, e)
  {
    match e
    case SearchMessages(request) => Requested(s.(request := request, offsetId := 0))
    case SearchMore =>
      if s.searchInHistoryRequest != 0 || s.requestId != 0 then s else Requested(s)
    case Done(id, reply) =>
      var sent := s.inFlight[id];
      var t := s.(inFlight := s.inFlight - {id}, searchInHistoryRequest := 0,
                  answered := s.answered + [Answer(sent, reply)]);
      if id != s.requestId then t else Received(t, reply, sent.token)
    case Fail(id, queryEmpty) =>
      s.(inFlight := s.inFlight - {id}, searchInHistoryRequest := 0,
         requestId := if s.requestId == id then 0 else s.requestId,
         published := if queryEmpty then s.published + [FoundMessages(0, [], s.inFlight[id].token)]
                      else s.published)
  }

  predicate PossibleRun(s: State, es: seq<Event>)
    decreases |es|
  {
    es == [] || (Possible(s, es[0]) && PossibleRun(Step(s, es[0]), es[1..]))
  }

  function Run(s: State, es: seq<Event>): State
    requires PossibleRun(s, es)
    decreases |es|
  {
    if es == [] then s else Run(Step(s, es[0]), es[1..])
  }

  // ---- What every step keeps ----

  // The reply was given to a start-of-search request whose token this is.
  ghost predicate AnswersStart(answered: seq<Answer>, token: string, reply: Reply) {
    exists a :: a in answered && a.sent.offsetId == 0 && Token(a.sent.request) == token && a.reply == reply
  }

  ghost predicate Inv(s: State) {
    // the current request is under way exactly as the fields describe it
    && (s.requestId != 0 ==>
          s.requestId in s.inFlight
          && s.inFlight[s.requestId] == Sent(s.request, s.offsetId, Token(s.request)))
    && (forall id :: id in s.inFlight ==>
          0 < id <= s.lastId && s.inFlight[id].token == Token(s.inFlight[id].request))
    && (forall t :: t in s.cacheOfStartByToken ==> AnswersStart(s.answered, t, s.cacheOfStartByToken[t]))
  }

  lemma StepKeepsInv(s: State, e: Event)
    requires Inv(s) && Possible(s, e)
    ensures Inv(Step(s, e))
  {
    hide Token, Parsed;
    match e
    case SearchMessages(request) => RequestedKeepsInv(s.(request := request, offsetId := 0));
    case SearchMore =>
      if s.searchInHistoryRequest == 0 && s.requestId == 0 {
        RequestedKeepsInv(s);
      }
    case Done(id, reply) =>
      var a := Answer(s.inFlight[id], reply);
      AnswersStay(s.answered, a);
      assert a in s.answered + [a];
    case Fail(id, queryEmpty) =>
  }

  lemma AnswersStay(answered: seq<Answer>, a: Answer)
    ensures forall t, reply :: AnswersStart(answered, t, reply) ==> AnswersStart(answered + [a], t, reply)
  {
    forall t, reply | AnswersStart(answered, t, reply) ensures AnswersStart(answered + [a], t, reply) {
      var b :| b in answered && b.sent.offsetId == 0 && Token(b.sent.request) == t && b.reply == reply;
      assert b in answered + [a];
    }
  }

  lemma RequestedKeepsInv(s: State)
    requires Inv(s.(requestId := 0))
    ensures Inv(Requested(s))
  {
    hide Token, Parsed;
  }

  lemma {:induction false} RunKeepsInv(s: State, es: seq<Event>)
    requires Inv(s) && PossibleRun(s, es)
    ensures Inv(Run(s, es))
    decreases |es|
  {
    hide Inv, Step, Possible;
    if es != [] {
      StepKeepsInv(s, es[0]);
      RunKeepsInv(Step(s, es[0]), es[1..]);
    }
  }

  lemma RunOfThree(e1: Event, e2: Event, e3: Event)
    requires Possible(INITIAL, e1) && Possible(Step(INITIAL, e1), e2)
    requires Possible(Step(Step(INITIAL, e1), e2), e3)
    ensures PossibleRun(INITIAL, [e1, e2, e3])
    ensures Run(INITIAL, [e1, e2, e3]) == Step(Step(Step(INITIAL, e1), e2), e3)
  {
    hide Step, Possible;
    var es := [e1, e2, e3];
    var s1 := Step(INITIAL, e1);
    assert es[1..] == [e2, e3] && es[1..][1..] == [e3] && [e3][1..] == [];
    assert PossibleRun(Step(s1, e2), [e3]) && PossibleRun(s1, [e2, e3]);
    assert Run(Step(s1, e2), [e3]) == Step(Step(s1, e2), e3);
  }

  // ---- Stale replies ----

  // In every reachable state a reply is published exactly when it answers the latest request sent, and
  // then it is a page of the current request, from the current offset.
  lemma ReplyIsPublishedIffCurrent(es: seq<Event>, id: nat, reply: Reply)
    requires PossibleRun(INITIAL, es) && id in Run(INITIAL, es).inFlight
    ensures var s := Run(INITIAL, es);
            var t := Step(s, Done(id, reply));
            if id == s.requestId then
              s.inFlight[id] == Sent(s.request, s.offsetId, Token(s.request))
              && t.published == s.published + [Parsed(reply, Token(s.request))]
            else
              t.published == s.published && t.cacheOfStartByToken == s.cacheOfStartByToken
              && t.offsetId == s.offsetId && t.requestId == s.requestId
  {
    RunKeepsInv(INITIAL, es);
  }

  // The request that an answer is to.
  function Origin(s: State, e: Event): Request
    requires (e.Done? || e.Fail?) && Possible(s, e)
  {
    s.inFlight[e.id].request
  }

  // Failures are not checked like that. In every reachable state an answer publishes something if it is the
  // latest request's reply or an empty-query failure, whichever request that was; and what is published is
  // about the current search unless it is an empty-query failure of a request for another one.
  lemma AnswerIsAboutTheCurrentSearchIff(es: seq<Event>, e: Event)
    requires PossibleRun(INITIAL, es) && Possible(Run(INITIAL, es), e) && (e.Done? || e.Fail?)
    ensures var s := Run(INITIAL, es);
            var t := Step(s, e);
            var published := t.published != s.published;
            && (published <==> if e.Done? then e.id == s.requestId else e.queryEmpty)
            && (published ==>
                  |t.published| == |s.published| + 1 && t.request == s.request
                  && (e.Done? || t.published == s.published + [FoundMessages(0, [], Token(Origin(s, e)))]))
            && (e.id == s.requestId ==> s.inFlight[e.id] == Sent(s.request, s.offsetId, Token(s.request)))
            && ((published ==> Origin(s, e) == s.request)
                <==> !(e.Fail? && e.queryEmpty && s.inFlight[e.id].request != s.request))
  {
    hide Token, Parsed;
    RunKeepsInv(INITIAL, es);
  }

  // The token that is published with a failure tells the two apart among plain requests about one topic.
  lemma FailureTokenTells(es: seq<Event>, id: nat)
    requires PossibleRun(INITIAL, es) && id in Run(INITIAL, es).inFlight
    requires var s := Run(INITIAL, es);
             Plain(s.request) && Plain(s.inFlight[id].request) && s.request.topMsgId == s.inFlight[id].request.topMsgId
    ensures var s := Run(INITIAL, es);
            var t := Step(s, Fail(id, true));
            && |t.published| == |s.published| + 1
            && (t.published[|s.published|].nextToken == Token(t.request) <==> s.inFlight[id].request == s.request)
  {
    hide Token, Parsed, Plain;
    RunKeepsInv(INITIAL, es);
    var s := Run(INITIAL, es);
    TokenDetermines(s.request, s.inFlight[id].request);
  }

  // It does happen: any two different searches, one after the other, and the first one failing.
  lemma StaleFailureIsPublished(first: Request, second: Request)
    requires first != second
    ensures var es := [SearchMessages(first), SearchMessages(second), Fail(1, true)];
            PossibleRun(INITIAL, es)
            && Run(INITIAL, es).request == second
            && Run(INITIAL, es).published == [FoundMessages(0, [], Token(first))]
  {
    hide Token;
    var es := [SearchMessages(first), SearchMessages(second), Fail(1, true)];
    var s1 := Step(INITIAL, es[0]);
    var s2 := Step(s1, es[1]);
    assert s2.inFlight == map[1 := Sent(first, 0, Token(first)), 2 := Sent(second, 0, Token(second))];
    RunOfThree(es[0], es[1], es[2]);
    assert es == [es[0], es[1], es[2]];
  }

  // With the same search in two topics even the token is the current one's.
  lemma FailureOfOtherTopicLooksCurrent(r: Request, topMsgId: nat)
    requires topMsgId != r.topMsgId
    ensures var other := r.(topMsgId := topMsgId);
            var es := [SearchMessages(r), SearchMessages(other), Fail(1, true)];
            PossibleRun(INITIAL, es)
            && Run(INITIAL, es).request == other
            && Run(INITIAL, es).published == [FoundMessages(0, [], Token(other))]
  {
    TopicIsNotInToken(r, topMsgId);
    StaleFailureIsPublished(r, r.(topMsgId := topMsgId));
  }

  lemma TopicIsNotInToken(r: Request, topMsgId: nat)
    ensures Token(r.(topMsgId := topMsgId)) == Token(r)
  {
    assert Lines(r.(topMsgId := topMsgId)) == Lines(r);
  }

  // ---- The first-page cache ----

  // The search sends nothing and publishes a cached first page.
  predicate IsServedFromCache(s: State, e: Event) {
    match e
    case SearchMessages(r) => Token(r) in s.cacheOfStartByToken
    case SearchMore =>
      s.searchInHistoryRequest == 0 && s.requestId == 0 && s.offsetId == 0 && Token(s.request) in s.cacheOfStartByToken
    case _ => false
  }

  // In every reachable state a search whose token is cached, and a searchMore that starts over, send nothing and
  // publish the reply of an earlier start-of-search request with that token: of an equal request, when both
  // are plain and about the same topic.
  lemma CachedSearchPublishesEqualRequestsReply(es: seq<Event>, e: Event)
    requires PossibleRun(INITIAL, es) && IsServedFromCache(Run(INITIAL, es), e)
    ensures var s := Run(INITIAL, es);
            var t := Step(s, e);
            var r := t.request;
            t.inFlight == s.inFlight && t.requestId == 0
            && exists a :: a in s.answered && a.sent.offsetId == 0 && Token(a.sent.request) == Token(r)
                 && t.published == s.published + [Parsed(a.reply, Token(r))]
                 && (Plain(r) && Plain(a.sent.request) && a.sent.request.topMsgId == r.topMsgId
                     ==> a.sent.request == r)
  {
    hide Token, Parsed, UsableIds, Plain;
    RunKeepsInv(INITIAL, es);
    var s := Run(INITIAL, es);
    var r := Step(s, e).request;
    var reply := s.cacheOfStartByToken[Token(r)];
    assert AnswersStart(s.answered, Token(r), reply);
    var a :| a in s.answered && a.sent.offsetId == 0 && Token(a.sent.request) == Token(r) && a.reply == reply;
    if Plain(r) && Plain(a.sent.request) && a.sent.request.topMsgId == r.topMsgId {
      TokenDetermines(r, a.sent.request);
    }
  }

  // The topic is not in the token: the same search in another topic is answered with the first one's reply.
  lemma CacheIgnoresTopic(r: Request, topMsgId: nat, reply: Reply)
    requires topMsgId != r.topMsgId
    ensures var es := [SearchMessages(r), Done(1, reply), SearchMessages(r.(topMsgId := topMsgId))];
            PossibleRun(INITIAL, es)
            && Run(INITIAL, es).inFlight == map[]
            && Run(INITIAL, es).published == [Parsed(reply, Token(r)), Parsed(reply, Token(r))]
  {
    var other := r.(topMsgId := topMsgId);
    TopicIsNotInToken(r, topMsgId);
    hide Token, Parsed, UsableIds;
    var es := [SearchMessages(r), Done(1, reply), SearchMessages(other)];
    var s1 := Step(INITIAL, es[0]);
    var s2 := Step(s1, es[1]);
    assert s2.inFlight == map[] && s2.cacheOfStartByToken == map[Token(r) := reply];
    RunOfThree(es[0], es[1], es[2]);
    assert es == [es[0], es[1], es[2]];
  }

  // ---- What a reply says, and where the next page starts ----

  // The items of a reply, and the total it gives, which for a complete list is how many there are.
  function ItemsOf(reply: Reply): seq<Item> {
    match reply
    case Messages(items) => items
    case MessagesSlice(items, _) => items
    case ChannelMessages(items, _) => items
    case NotModified => []
  }

  // Whichever item is usable is published, after the usable ones before it and before those after it.
  lemma {:induction false} UsableItemIsPublished(items: seq<Item>, k: nat)
    requires k < |items|
    ensures UsableIds(items)
            == UsableIds(items[..k]) + (if items[k].usable then [items[k].id] else []) + UsableIds(items[k + 1..])
    ensures UsableIds([]) == []
  {
    if k > 0 {
      UsableItemIsPublished(items[1..], k - 1);
      assert items[1..][..k - 1] == items[..k][1..] && items[1..][k..] == items[k + 1..];
      assert items[..k][0] == items[0];
    }
  }

  lemma RepliesAreParsed(items: seq<Item>, count: nat, token: string)
    ensures Parsed(Messages(items), token) == FoundMessages(|items|, UsableIds(items), token)
    ensures Parsed(MessagesSlice(items, count), token) == FoundMessages(count, UsableIds(items), token)
    ensures Parsed(ChannelMessages(items, count), token) == FoundMessages(count, UsableIds(items), token)
    ensures Parsed(NotModified, token) == FoundMessages(-1, [], "")
  {
  }

  // No item from k on is usable.
  predicate NoneUsableFrom(items: seq<Item>, k: nat) {
    forall i :: k <= i < |items| ==> !items[i].usable
  }

  lemma {:induction false} NothingUsable(items: seq<Item>)
    requires NoneUsableFrom(items, 0)
    ensures UsableIds(items) == []
  {
    if items != [] {
      NothingUsable(items[1..]);
    }
  }

  lemma LastUsableId(items: seq<Item>, k: nat)
    requires k < |items| && items[k].usable && NoneUsableFrom(items, k + 1)
    ensures UsableIds(items) != [] && UsableIds(items)[|UsableIds(items)| - 1] == items[k].id
  {
    UsableItemIsPublished(items, k);
    NothingUsable(items[k + 1..]);
  }

  // After a published reply the offset is the id of its last usable message, and searchMore asks for what comes
  // after that; with no usable message the search is back at the start.
  lemma NextPageStartsAfterTheLastMessage(es: seq<Event>, reply: Reply, k: nat)
    requires PossibleRun(INITIAL, es) && Run(INITIAL, es).requestId != 0
    requires k <= |ItemsOf(reply)| && NoneUsableFrom(ItemsOf(reply), k)
    requires k > 0 ==> ItemsOf(reply)[k - 1].usable
    ensures var s := Run(INITIAL, es);
            && s.requestId in s.inFlight
            && var t := Step(s, Done(s.requestId, reply));
            var offset := if k > 0 then ItemsOf(reply)[k - 1].id else 0;
            && t.offsetId == offset && t.requestId == 0 && t.searchInHistoryRequest == 0
            && (offset != 0 ==>
                  var u := Step(t, SearchMore);
                  u.inFlight == t.inFlight[t.lastId + 1 := Sent(s.request, offset, Token(s.request))]
                  && u.requestId == t.lastId + 1 && u.published == t.published)
  {
    hide Token, UsableIds;
    RunKeepsInv(INITIAL, es);
    if k > 0 {
      LastUsableId(ItemsOf(reply), k - 1);
    } else {
      NothingUsable(ItemsOf(reply));
    }
  }

  // searchMore does nothing while a request is under way, and otherwise sends one or publishes the cached page.
  lemma SearchMoreWaits(s: State)
    ensures var t := Step(s, SearchMore);
            if s.searchInHistoryRequest != 0 || s.requestId != 0 then t == s
            else if s.offsetId == 0 && Token(s.request) in s.cacheOfStartByToken then
              t.inFlight == s.inFlight && |t.published| == |s.published| + 1
            else t.published == s.published
                 && t.inFlight == s.inFlight[s.lastId + 1 := Sent(s.request, s.offsetId, Token(s.request))]
                 && t.requestId == t.searchInHistoryRequest == t.lastId == s.lastId + 1
  {
    hide Token, Parsed;
  }

  // A new search starts over, whatever is under way: it sends its request or publishes the cached page.
  lemma SearchStartsOver(s: State, r: Request)
    ensures var t := Step(s, SearchMessages(r));
            && t.request == r
            && if Token(r) in s.cacheOfStartByToken then
                 t.inFlight == s.inFlight && |t.published| == |s.published| + 1 && t.requestId == 0
               else t.published == s.published && t.offsetId == 0
                    && t.inFlight == s.inFlight[s.lastId + 1 := Sent(r, 0, Token(r))]
                    && t.requestId == t.searchInHistoryRequest == t.lastId == s.lastId + 1
  {
    hide Token, Parsed;
  }

  // Every answer, also a stale one, lets searchMore go on, unless a newer request is under way.
  lemma AnswerFrees(s: State, e: Event)
    requires (e.Done? || e.Fail?) && Possible(s, e)
    ensures var t := Step(s, e);
            && t.searchInHistoryRequest == 0
            && t.requestId == (if e.id == s.requestId then 0 else s.requestId)
            && t.inFlight == s.inFlight - {e.id}
            && (e.Fail? ==> t.offsetId == s.offsetId && t.cacheOfStartByToken == s.cacheOfStartByToken)
            && t.request == s.request
  {
    hide Token, Parsed;
  }

  // The first page of a search is cached unless one is already; no other page is.
  lemma FirstPageIsCached(s: State, reply: Reply)
    requires s.requestId in s.inFlight
    ensures var t := Step(s, Done(s.requestId, reply));
            var token := s.inFlight[s.requestId].token;
            t.cacheOfStartByToken
            == if s.offsetId != 0 || token in s.cacheOfStartByToken then s.cacheOfStartByToken
               else s.cacheOfStartByToken[token := reply]
  {
    hide Token, Parsed;
  }

  // ---- The object ----

  class MessagesSearch {
    var request: Request
    var offsetId: nat
    var cacheOfStartByToken: map<string, Reply>
    var requestId: nat
    var searchInHistoryRequest: nat
    var lastId: nat                  // the last request id given out
    var inFlight: map<nat, Sent>     // what the reply handlers under way have captured
    ghost var answered: seq<Answer>
    ghost var published: seq<FoundMessages>

    ghost function Abs(): State
      reads this
    {
      State(request, offsetId, cacheOfStartByToken, requestId, searchInHistoryRequest,
            lastId, inFlight, answered, published)
    }

    constructor ()
      ensures Abs() == INITIAL
    {
      request, offsetId, cacheOfStartByToken, requestId := NO_REQUEST, 0, map[], 0;
      searchInHistoryRequest, lastId, inFlight, answered, published := 0, 0, map[], [], [];
    }

    method SearchMessages(newRequest: Request) returns (fired: Option<FoundMessages>)
      modifies this
      ensures Abs() == Step(old(Abs()), Event.SearchMessages(newRequest))
      ensures published == old(published) + if fired.Some? then [fired.value] else []
    {
      request := newRequest;
      offsetId := 0;
      fired := SearchRequest();
    }

    method SearchMore() returns (fired: Option<FoundMessages>)
      modifies this
      ensures Abs() == Step(old(Abs()), Event.SearchMore)
      ensures published == old(published) + if fired.Some? then [fired.value] else []
    {
      if searchInHistoryRequest != 0 || requestId != 0 {
        return None;
      }
      fired := SearchRequest();
    }

    method SearchRequest() returns (fired: Option<FoundMessages>)
      modifies this
      ensures Abs() == Requested(old(Abs()))
      ensures published == old(published) + if fired.Some? then [fired.value] else []
    {
      var nextToken := RequestToToken(request);
      if offsetId == 0 {
        if nextToken in cacheOfStartByToken {
          requestId := 0;
          fired := SearchReceived(cacheOfStartByToken[nextToken], requestId, nextToken);
          return;
        }
      }
      lastId := lastId + 1;
      requestId := lastId;
      inFlight := inFlight[requestId := Sent(request, offsetId, nextToken)];
      searchInHistoryRequest := requestId;
      fired := None;
    }

    method SearchReceived(result: Reply, id: nat, nextToken: string) returns (fired: Option<FoundMessages>)
      modifies this
      ensures Abs() == if id != old(requestId) then old(Abs()) else Received(old(Abs()), result, nextToken)
      ensures published == old(published) + if fired.Some? then [fired.value] else []
    {
      if id != requestId {
        return None;
      }
      var found := Parsed(result, nextToken);
      if offsetId == 0 && nextToken !in cacheOfStartByToken {
        cacheOfStartByToken := cacheOfStartByToken[nextToken := result];
      }
      requestId := 0;
      offsetId := if found.messages == [] then 0 else found.messages[|found.messages| - 1];
      published := published + [found];
      fired := Some(found);
    }

    method OnDone(id: nat, result: Reply) returns (fired: Option<FoundMessages>)
      requires id in inFlight
      modifies this
      ensures Abs() == Step(old(Abs()), Done(id, result))
      ensures published == old(published) + if fired.Some? then [fired.value] else []
    {
      var nextToken := inFlight[id].token;
      answered := answered + [Answer(inFlight[id], result)];
      inFlight := inFlight - {id};
      searchInHistoryRequest := 0;
      fired := SearchReceived(result, id, nextToken);
    }

    method OnFail(id: nat, queryEmpty: bool) returns (fired: Option<FoundMessages>)
      requires id in inFlight
      modifies this
      ensures Abs() == Step(old(Abs()), Fail(id, queryEmpty))
      ensures published == old(published) + if fired.Some? then [fired.value] else []
    {
      var nextToken := inFlight[id].token;
      inFlight := inFlight - {id};
      searchInHistoryRequest := 0;
      if requestId == id {
        requestId := 0;
      }
      fired := None;
      if queryEmpty {
        fired := Some(FoundMessages(0, [], nextToken));
        published := published + [fired.value];
      }
    }
  }
}
