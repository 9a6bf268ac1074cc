// Loading the chat list, of the main list and of folders (apiwrap.cpp): pages of the list and the pinned
// chats are asked for separately, and the list is done when both have arrived.
module DialogsLoad {
  import opened Options

  // A folder, or the main list.
  type List = Option<nat>

  datatype LoadState = LoadState(
    offsetDate: int, offsetId: nat, offsetPeer: nat, requestId: nat, listReceived: bool,
    pinnedRequestId: nat, pinnedReceived: bool)

  const NEW_LOAD := LoadState(0, 0, 0, 0, false, 0, false)

  datatype Request = GetDialogs(list: List) | GetPinnedDialogs(list: List)

  // What a reply says of the list: it is complete, or the offset of the next page (none was found when the
  // date is 0), or nothing.
  datatype Reply = NotModified | Complete | Slice(date: int, msgId: nat, peer: nat)

  // The load states and the date limit; the requests under way; and, for every list, how often a load state
  // was created and how often chatsListDone was posted.
  datatype State = State(
    loads: map<List, LoadState>, loadTill: int, blockedByDate: bool,
    lastId: nat, inFlight: map<nat, Request>, created: multiset<List>, done: multiset<List>)

  const INITIAL := State(map[None := NEW_LOAD], 0, false, 0, map[], multiset{None}, multiset{})

  datatype Event =
    | RequestDialogs(list: List)
    | RequestMore(list: List)
    | RequestPinned(list: List)
    | MoreBlockedByDate(now: int, slice: int)
    | ListDone(id: nat, reply: Reply)
    | ListFail(id: nat)
    | PinnedArrived(id: nat)   // done or fail

  predicate Possible(s: State, e: Event) {
    match e
    case ListDone(id, _) => id in s.inFlight && s.inFlight[id].GetDialogs?
    case ListFail(id) => id in s.inFlight && s.inFlight[id].GetDialogs?
    case PinnedArrived(id) => id in s.inFlight && s.inFlight[id].GetPinnedDialogs?
    case _ => true
  }

  // refreshDialogsLoadBlocked
  function Refreshed(s: State): State {
    s.(blockedByDate :=
         None in s.loads
         && var load := s.loads[None];
            !load.listReceived && load.requestId == 0 && s.loadTill > 0 && 0 < load.offsetDate <= s.loadTill)
  }

  function PinnedRequested(s: State, list: List): State {
    if list !in s.loads || s.loads[list].pinnedReceived || s.loads[list].pinnedRequestId != 0 then s
    else
      var id := s.lastId + 1;
      s.(lastId := id, inFlight := s.inFlight[id := GetPinnedDialogs(list)],
         loads := s.loads[list := s.loads[list].(pinnedRequestId := id)])
  }

  // requestMoreDialogs
  function MoreRequested(s: State, list: List): State {
    if list !in s.loads || s.loads[list].requestId != 0 || s.blockedByDate then s
    else
      var t := ListRequested(s, list);
      var u := if s.loads[list].pinnedReceived then t else PinnedRequested(t, list);
      if list.None? then Refreshed(u) else u
  }

  // dialogsLoadFinish
  function Finished(s: State, list: List): State {
    if list !in s.loads || !s.loads[list].listReceived || !s.loads[list].pinnedReceived then s
    else s.(loads := s.loads - {list}, done := s.done + multiset{list})
  }

  function DialogsRequested(s: State, list: List): State {
    MoreRequested(if list.Some? && list !in s.loads
                  then s.(loads := s.loads[list := NEW_LOAD], created := s.created + multiset{list}) else s,
                  list)
  }

  // The list part of the done handler of requestMoreDialogs
  function ListReceived(s: State, list: List, reply: Reply): State {
    if list !in s.loads then s
    else match reply
      case NotModified => s
      case Complete => Finished(s.(loads := s.loads[list := s.loads[list].(listReceived := true)]), list)
      case Slice(date, msgId, peer) =>
        if date != 0 then
          s.(loads := s.loads[list := s.loads[list].(offsetDate := date, offsetId := msgId, offsetPeer := peer,
                                                     requestId := 0)])
        else Finished(s.(loads := s.loads[list := s.loads[list].(listReceived := true)]), list)
  }

  function Step(s: State, e: Event): State
    requires Possible(s, e)
  {
    match e
    case RequestDialogs(list) => DialogsRequested(s, list)
    case RequestMore(list) => MoreRequested(s, list)
    case RequestPinned(list) => PinnedRequested(s, list)
    case MoreBlockedByDate(now, slice) =>
      if None !in s.loads then s
      else
        var offset := s.loads[None].offsetDate;
        DialogsRequested(Refreshed(s.(loadTill := (if offset != 0 then offset else now) - slice)), None)
    case ListDone(id, reply) =>
      var list := s.inFlight[id].list;
      var t := ListReceived(s.(inFlight := s.inFlight - {id}), list, reply);
      if list.None? && (None !in t.loads || !t.loads[None].listReceived) then Refreshed(t) else t
    case ListFail(id) =>
      var list := s.inFlight[id].list;
      var t := s.(inFlight := s.inFlight - {id});
      if list in s.loads then t.(loads := s.loads[list := s.loads[list].(requestId := 0)]) else t
    case PinnedArrived(id) =>
      var list := s.inFlight[id].list;
      var t := s.(inFlight := s.inFlight - {id});
      if list !in s.loads then t
      else Finished(t.(loads := s.loads[list := s.loads[list].(pinnedRequestId := 0, pinnedReceived := true)]), list)
  }

  predicate PossibleRun(s: State, es: seq<Event>)
    decreases |es|
  {
    es == [] || (Possible(s, es[0]) && PossibleRun(Step(s, es[0]), es[1..]))
  }

  function Run(s: State, es: seq<Event>): State
    requires PossibleRun(s, es)
    decreases |es|
  {
    if es == [] then s else Run(Step(s, es[0]), es[1..])
  }

  // ---- What every step keeps ----

  // One load state, with its requests under way.
  ghost predicate LoadInv(s: State, list: List) {
    list in s.loads ==>
      var load := s.loads[list];
      // complete lists hold on to their last request id and wait for the pinned chats
      && (load.listReceived ==> load.requestId != 0 && !load.pinnedReceived)
      && (load.pinnedReceived ==> load.pinnedRequestId == 0)
      && (load.pinnedRequestId != 0 ==>
            load.pinnedRequestId in s.inFlight && s.inFlight[load.pinnedRequestId] == GetPinnedDialogs(list))
  }

  ghost predicate RequestInv(s: State, id: nat) {
    id in s.inFlight ==>
      0 < id <= s.lastId
      && match s.inFlight[id]
         case GetDialogs(list) => list in s.loads && s.loads[list].requestId == id && !s.loads[list].listReceived
         case GetPinnedDialogs(list) =>
           list in s.loads && s.loads[list].pinnedRequestId == id && !s.loads[list].pinnedReceived
  }

  // Every load state created is still there or was done, once.
  ghost predicate CountInv(s: State, list: List) {
    s.created[list] == s.done[list] + if list in s.loads then 1 else 0
  }

  ghost predicate IdInv(s: State, list: List) {
    list in s.loads ==> s.loads[list].requestId <= s.lastId && s.loads[list].pinnedRequestId <= s.lastId
  }

  ghost predicate Inv(s: State) {
    && (forall list :: LoadInv(s, list))
    && (forall list :: IdInv(s, list))
    && (forall list :: CountInv(s, list))
    && (forall id :: RequestInv(s, id))
  }

  lemma RefreshedKeepsInv(s: State)
    requires Inv(s)
    ensures Inv(Refreshed(s))
  {
    var t := Refreshed(s);
    forall list ensures LoadInv(t, list) && IdInv(t, list) && CountInv(t, list) {
      assert LoadInv(s, list) && IdInv(s, list) && CountInv(s, list);
    }
    forall id ensures RequestInv(t, id) {
      assert RequestInv(s, id);
    }
  }

  lemma PinnedRequestedKeepsInv(s: State, list: List)
    requires Inv(s)
    ensures Inv(PinnedRequested(s, list))
  {
    var t := PinnedRequested(s, list);
    assert RequestInv(s, s.lastId + 1);
    forall l ensures LoadInv(t, l) && IdInv(t, l) && CountInv(t, l) {
      assert LoadInv(s, l) && IdInv(s, l) && CountInv(s, l);
    }
    forall id ensures RequestInv(t, id) {
      assert RequestInv(s, id);
    }
  }

  function ListRequested(s: State, list: List): State
    requires list in s.loads
  {
    var id := s.lastId + 1;
    s.(lastId := id, inFlight := s.inFlight[id := GetDialogs(list)],
       loads := s.loads[list := s.loads[list].(requestId := id)])
  }

  lemma ListRequestedKeepsInv(s: State, list: List)
    requires Inv(s) && list in s.loads && s.loads[list].requestId == 0
    ensures Inv(ListRequested(s, list))
  {
    var t := ListRequested(s, list);
    assert LoadInv(s, list);
    forall l ensures LoadInv(t, l) && IdInv(t, l) && CountInv(t, l) {
      assert LoadInv(s, l) && IdInv(s, l) && CountInv(s, l);
    }
    forall id ensures RequestInv(t, id) {
      assert RequestInv(s, id);
    }
  }

  lemma MoreRequestedKeepsInv(s: State, list: List)
    requires Inv(s)
    ensures Inv(MoreRequested(s, list))
  {
    hide Inv, PinnedRequested, Refreshed;
    if list in s.loads && s.loads[list].requestId == 0 && !s.blockedByDate {
      ListRequestedKeepsInv(s, list);
      var t := ListRequested(s, list);
      PinnedRequestedKeepsInv(t, list);
      RefreshedKeepsInv(t);
      RefreshedKeepsInv(PinnedRequested(t, list));
    }
  }

  lemma DialogsRequestedKeepsInv(s: State, list: List)
    requires Inv(s)
    ensures Inv(DialogsRequested(s, list))
  {
    var t := if list.Some? && list !in s.loads
             then s.(loads := s.loads[list := NEW_LOAD], created := s.created + multiset{list}) else s;
    forall l ensures LoadInv(t, l) && IdInv(t, l) && CountInv(t, l) {
      assert LoadInv(s, l) && IdInv(s, l) && CountInv(s, l);
    }
    forall id ensures RequestInv(t, id) {
      assert RequestInv(s, id);
    }
    MoreRequestedKeepsInv(t, list);
  }

  // The invariant, for a list whose reply has come and is not dealt with yet.
  ghost predicate InvWithout(s: State, list: List) {
    && (forall l :: LoadInv(s, l))
    && (forall l :: IdInv(s, l))
    && (forall l :: CountInv(s, l))
    && (forall id :: RequestInv(s, id))
    && (forall id :: id in s.inFlight ==> s.inFlight[id] != GetDialogs(list))
    && list in s.loads && !s.loads[list].listReceived && s.loads[list].requestId != 0
  }

  lemma ReplyTakenOut(s: State, id: nat)
    requires Inv(s) && id in s.inFlight && s.inFlight[id].GetDialogs?
    ensures InvWithout(s.(inFlight := s.inFlight - {id}), s.inFlight[id].list)
  {
    hide CountInv, IdInv;
    var list := s.inFlight[id].list;
    var t := s.(inFlight := s.inFlight - {id});
    assert RequestInv(s, id);
    forall l ensures LoadInv(t, l) && IdInv(t, l) && CountInv(t, l) {
      assert LoadInv(s, l) && IdInv(s, l) && CountInv(s, l);
      LoadsAlone(s, t, l);
    }
    forall i ensures RequestInv(t, i) {
      assert RequestInv(s, i);
    }
    forall i | i in t.inFlight ensures t.inFlight[i] != GetDialogs(list) {
      assert RequestInv(s, i);
    }
  }

  // These two are about the load states and the counts alone.
  lemma LoadsAlone(s: State, t: State, list: List)
    requires t.loads == s.loads && t.lastId == s.lastId && t.created == s.created && t.done == s.done
    ensures IdInv(s, list) ==> IdInv(t, list)
    ensures CountInv(s, list) ==> CountInv(t, list)
  {
  }

  // A next page frees the request; no other list's state changes.
  lemma OffsetMovedKeepsInv(s: State, list: List, date: int, msgId: nat, peer: nat)
    requires InvWithout(s, list)
    ensures Inv(s.(loads := s.loads[list := s.loads[list].(offsetDate := date, offsetId := msgId, offsetPeer := peer,
                                                           requestId := 0)]))
  {
    var t := s.(loads := s.loads[list := s.loads[list].(offsetDate := date, offsetId := msgId, offsetPeer := peer,
                                                        requestId := 0)]);
    forall l ensures LoadInv(t, l) && IdInv(t, l) && CountInv(t, l) {
      assert IdInv(s, l) && CountInv(s, l) && LoadInv(s, l);
    }
    forall i ensures RequestInv(t, i) {
      assert RequestInv(s, i);
    }
  }

  // A complete list keeps its request id, or is done at once.
  lemma ListCompletedKeepsInv(s: State, list: List)
    requires InvWithout(s, list)
    ensures Inv(Finished(s.(loads := s.loads[list := s.loads[list].(listReceived := true)]), list))
  {
    var t := Finished(s.(loads := s.loads[list := s.loads[list].(listReceived := true)]), list);
    forall l ensures LoadInv(t, l) && IdInv(t, l) && CountInv(t, l) {
      assert IdInv(s, l) && CountInv(s, l) && LoadInv(s, l);
    }
    forall i ensures RequestInv(t, i) {
      assert RequestInv(s, i);
    }
  }

  lemma WithoutIsInv(s: State, list: List)
    requires InvWithout(s, list)
    ensures Inv(s)
  {
  }

  lemma ListReceivedKeepsInv(s: State, id: nat, reply: Reply)
    requires Inv(s) && Possible(s, ListDone(id, reply))
    ensures Inv(ListReceived(s.(inFlight := s.inFlight - {id}), s.inFlight[id].list, reply))
  {
    hide Inv, InvWithout, Finished;
    var list := s.inFlight[id].list;
    var t := s.(inFlight := s.inFlight - {id});
    ReplyTakenOut(s, id);
    WithoutIsInv(t, list);
    if list in s.loads {
      match reply
      case NotModified =>
      case Complete => ListCompletedKeepsInv(t, list);
      case Slice(date, msgId, peer) =>
        if date != 0 {
          OffsetMovedKeepsInv(t, list, date, msgId, peer);
        } else {
          ListCompletedKeepsInv(t, list);
        }
    }
  }

  lemma ListFailKeepsInv(s: State, id: nat)
    requires Inv(s) && Possible(s, ListFail(id))
    ensures Inv(Step(s, ListFail(id)))
  {
    var list := s.inFlight[id].list;
    var t := Step(s, ListFail(id));
    assert RequestInv(s, id) && LoadInv(s, list);
    forall l ensures LoadInv(t, l) && IdInv(t, l) && CountInv(t, l) {
      assert LoadInv(s, l) && IdInv(s, l) && CountInv(s, l);
    }
    forall i ensures RequestInv(t, i) {
      assert RequestInv(s, i);
    }
  }

  lemma PinnedArrivedKeepsInv(s: State, id: nat)
    requires Inv(s) && Possible(s, PinnedArrived(id))
    ensures Inv(Step(s, PinnedArrived(id)))
  {
    var list := s.inFlight[id].list;
    var t := Step(s, PinnedArrived(id));
    assert RequestInv(s, id) && LoadInv(s, list);
    forall l ensures LoadInv(t, l) && IdInv(t, l) && CountInv(t, l) {
      assert LoadInv(s, l) && IdInv(s, l) && CountInv(s, l);
    }
    forall i ensures RequestInv(t, i) {
      assert RequestInv(s, i);
    }
  }

  lemma StepKeepsInv(s: State, e: Event)
    requires Inv(s) && Possible(s, e)
    ensures Inv(Step(s, e))
  {
    hide Inv, PinnedRequested, MoreRequested, DialogsRequested, Refreshed, ListReceived;
    match e
    case RequestDialogs(list) => DialogsRequestedKeepsInv(s, list);
    case RequestMore(list) => MoreRequestedKeepsInv(s, list);
    case RequestPinned(list) => PinnedRequestedKeepsInv(s, list);
    case MoreBlockedByDate(now, slice) =>
      if None in s.loads {
        var offset := s.loads[None].offsetDate;
        var t := s.(loadTill := (if offset != 0 then offset else now) - slice);
        LimitKeepsInv(s, t.loadTill);
        RefreshedKeepsInv(t);
        DialogsRequestedKeepsInv(Refreshed(t), None);
      }
    case ListDone(id, reply) =>
      ListReceivedKeepsInv(s, id, reply);
      RefreshedKeepsInv(ListReceived(s.(inFlight := s.inFlight - {id}), s.inFlight[id].list, reply));
    case ListFail(id) => ListFailKeepsInv(s, id);
    case PinnedArrived(id) => PinnedArrivedKeepsInv(s, id);
  }

  lemma LimitKeepsInv(s: State, till: int)
    requires Inv(s)
    ensures Inv(s.(loadTill := till))
  {
    var t := s.(loadTill := till);
    forall list ensures LoadInv(t, list) && IdInv(t, list) && CountInv(t, list) {
      assert LoadInv(s, list) && IdInv(s, list) && CountInv(s, list);
    }
    forall id ensures RequestInv(t, id) {
      assert RequestInv(s, id);
    }
  }

  lemma {:induction false} RunKeepsInv(s: State, es: seq<Event>)
    requires Inv(s) && PossibleRun(s, es)
    ensures Inv(Run(s, es))
    decreases |es|
  {
    hide Inv, Possible, Step;
    if es != [] {
      StepKeepsInv(s, es[0]);
      RunKeepsInv(Step(s, es[0]), es[1..]);
    }
  }

  lemma InitialInv()
    ensures Inv(INITIAL)
  {
  }

  // ---- The barrier ----

  // In every reachable state at most one request for a list's pages is under way, it belongs to the list's
  // load state, and a failure finds that state.
  lemma OneListRequestAtMost(es: seq<Event>, id: nat)
    requires PossibleRun(INITIAL, es)
    requires id in Run(INITIAL, es).inFlight && Run(INITIAL, es).inFlight[id].GetDialogs?
    ensures var s := Run(INITIAL, es);
            var list := s.inFlight[id].list;
            list in s.loads && s.loads[list].requestId == id && !s.loads[list].listReceived
            && (forall other :: other in s.inFlight && s.inFlight[other] == GetDialogs(list) ==> other == id)
            && Step(s, ListFail(id)).loads == s.loads[list := s.loads[list].(requestId := 0)]
  {
    hide Inv, Step, Run, PossibleRun;
    InitialInv();
    RunKeepsInv(INITIAL, es);
    OneRequestInState(Run(INITIAL, es), id);
  }

  lemma OneRequestInState(s: State, id: nat)
    requires Inv(s) && id in s.inFlight && s.inFlight[id].GetDialogs?
    ensures var list := s.inFlight[id].list;
            list in s.loads && s.loads[list].requestId == id && !s.loads[list].listReceived
            && (forall other :: other in s.inFlight && s.inFlight[other] == GetDialogs(list) ==> other == id)
            && Step(s, ListFail(id)).loads == s.loads[list := s.loads[list].(requestId := 0)]
  {
    assert RequestInv(s, id);
    forall other | other in s.inFlight && s.inFlight[other] == s.inFlight[id] ensures other == id {
      assert RequestInv(s, other);
    }
  }

  // The list is complete and waits for its pinned chats.
  ghost predicate CompleteList(s: State, list: List, requestId: nat) {
    list in s.loads && s.loads[list].listReceived && s.loads[list].requestId == requestId
    && requestId != 0 && forall id :: id in s.inFlight ==> s.inFlight[id] != GetDialogs(list)
  }

  lemma CompleteListHasNoRequest(s: State, list: List)
    requires Inv(s) && list in s.loads && s.loads[list].listReceived
    ensures CompleteList(s, list, s.loads[list].requestId)
  {
    assert LoadInv(s, list);
    forall id | id in s.inFlight ensures s.inFlight[id] != GetDialogs(list) {
      assert RequestInv(s, id);
    }
  }

  // From then on every step leaves it so, with no further request for its pages, until it is done.
  lemma CompleteListStays(s: State, list: List, e: Event)
    requires Inv(s) && Possible(s, e) && list in s.loads && s.loads[list].listReceived
    ensures var t := Step(s, e);
            if list in t.loads then CompleteList(t, list, s.loads[list].requestId) && t.done[list] == s.done[list]
            else t.done[list] == s.done[list] + 1
  {
    CompleteListHasNoRequest(s, list);
    StepKeepsInv(s, e);
    StepKeepsComplete(s, list, e);
    if list in Step(s, e).loads {
      CompleteListHasNoRequest(Step(s, e), list);
    }
  }

  // Nothing is done, and no load state forgets what has arrived or the request under way.
  ghost predicate Quiet(s: State, t: State) {
    t.done == s.done && s.loads.Keys <= t.loads.Keys
    && forall l :: l in s.loads ==>
         t.loads[l].listReceived == s.loads[l].listReceived
         && t.loads[l].pinnedReceived == s.loads[l].pinnedReceived
         && (s.loads[l].requestId != 0 ==> t.loads[l].requestId == s.loads[l].requestId)
  }

  lemma RequestsAreQuiet(s: State, list: List)
    ensures Quiet(s, Refreshed(s)) && Quiet(s, PinnedRequested(s, list)) && Quiet(s, DialogsRequested(s, list))
    ensures Quiet(s, MoreRequested(s, list)) && MoreRequested(s, list).loads.Keys == s.loads.Keys
  {
    hide Quiet, MoreRequested, PinnedRequested, Refreshed;
    MoreIsQuiet(s, list);
    PinnedIsQuiet(s, list);
    DialogsAreQuiet(s, list);
  }

  lemma PinnedIsQuiet(s: State, list: List)
    ensures Quiet(s, Refreshed(s)) && Quiet(s, PinnedRequested(s, list))
  {
  }

  lemma DialogsAreQuiet(s: State, list: List)
    ensures Quiet(s, DialogsRequested(s, list))
  {
    hide MoreRequested;
    var t := if list.Some? && list !in s.loads
             then s.(loads := s.loads[list := NEW_LOAD], created := s.created + multiset{list}) else s;
    MoreIsQuiet(t, list);
  }

  lemma MoreIsQuiet(s: State, list: List)
    ensures Quiet(s, MoreRequested(s, list)) && MoreRequested(s, list).loads.Keys == s.loads.Keys
  {
    if list in s.loads && s.loads[list].requestId == 0 && !s.blockedByDate {
      var t := ListRequested(s, list);
      var u := if s.loads[list].pinnedReceived then t else PinnedRequested(t, list);
      assert Quiet(s, t) && Quiet(t, u);
    }
  }

  function ArrivesLast(s: State, e: Event): Option<List>
    requires Possible(s, e)
  {
    match e
    case ListDone(id, reply) =>
      var list := s.inFlight[id].list;
      if list in s.loads && s.loads[list].pinnedReceived && Completes(reply) then Some(list) else None
    case PinnedArrived(id) =>
      var list := s.inFlight[id].list;
      if list in s.loads && s.loads[list].listReceived then Some(list) else None
    case _ => None
  }

  // chatsListDone is posted exactly on the step on which the later of the complete list and the pinned chats
  // arrives, and the load state goes with it.
  lemma DoneWhenTheLaterArrives(s: State, e: Event)
    requires Inv(s) && Possible(s, e)
    ensures var t := Step(s, e);
            match ArrivesLast(s, e)
            case Some(list) => t.done == s.done + multiset{list} && list in s.loads && t.loads == s.loads - {list}
            case None => t.done == s.done && s.loads.Keys <= t.loads.Keys
  {
    match e
    case ListDone(id, reply) =>
      assert RequestInv(s, id);
      hide Inv, Step;
      ListDoneFinishes(s, id, reply);
    case PinnedArrived(id) =>
      assert LoadInv(s, s.inFlight[id].list);
      hide Inv, LoadInv;
    case ListFail(id) => hide Inv;
    case _ =>
      hide Inv, Step;
      RequestStepIsQuiet(s, e);
  }

  lemma ListDoneFinishes(s: State, id: nat, reply: Reply)
    requires Possible(s, ListDone(id, reply))
    requires s.inFlight[id].list in s.loads && !s.loads[s.inFlight[id].list].listReceived
    ensures var t := Step(s, ListDone(id, reply));
            match ArrivesLast(s, ListDone(id, reply))
            case Some(list) => t.done == s.done + multiset{list} && list in s.loads && t.loads == s.loads - {list}
            case None => t.done == s.done && s.loads.Keys <= t.loads.Keys
  {
    hide Refreshed, ListReceived;
    var list := s.inFlight[id].list;
    var t := s.(inFlight := s.inFlight - {id});
    ReceivedFinishes(t, list, reply);
    RefreshedLoads(ListReceived(t, list, reply));
  }

  // Whether a reply completes its list.
  predicate Completes(reply: Reply) {
    reply.Complete? || (reply.Slice? && reply.date == 0)
  }

  lemma ReceivedFinishes(s: State, list: List, reply: Reply)
    requires list in s.loads && !s.loads[list].listReceived
    ensures var t := ListReceived(s, list, reply);
            if s.loads[list].pinnedReceived && Completes(reply) then
              t.done == s.done + multiset{list} && t.loads == s.loads - {list}
            else t.done == s.done && t.loads.Keys == s.loads.Keys
  {
    hide Finished;
    if Completes(reply) {
      CompletedFinishes(s, list);
    }
  }

  lemma CompletedFinishes(s: State, list: List)
    requires list in s.loads
    ensures var t := Finished(s.(loads := s.loads[list := s.loads[list].(listReceived := true)]), list);
            if s.loads[list].pinnedReceived then t.done == s.done + multiset{list} && t.loads == s.loads - {list}
            else t.done == s.done && t.loads.Keys == s.loads.Keys
  {
    assert s.loads[list := s.loads[list].(listReceived := true)] - {list} == s.loads - {list};
  }

  lemma RefreshedLoads(s: State)
    ensures Refreshed(s).loads == s.loads && Refreshed(s).done == s.done && Refreshed(s).inFlight == s.inFlight
  {
  }

  lemma RequestStepIsQuiet(s: State, e: Event)
    requires e.RequestDialogs? || e.RequestMore? || e.RequestPinned? || e.MoreBlockedByDate?
    ensures Quiet(s, Step(s, e))
  {
    hide DialogsRequested, MoreRequested, PinnedRequested;
    match e
    case MoreBlockedByDate(now, slice) =>
      if None in s.loads {
        var offset := s.loads[None].offsetDate;
        var t := Refreshed(s.(loadTill := (if offset != 0 then offset else now) - slice));
        RequestsAreQuiet(t, None);
      }
    case RequestDialogs(list) => RequestsAreQuiet(s, list);
    case RequestMore(list) => RequestsAreQuiet(s, list);
    case RequestPinned(list) => RequestsAreQuiet(s, list);
  }

  lemma ReceivedKeepsOthers(s: State, other: List, reply: Reply, list: List)
    requires list != other && list in s.loads
    ensures var t := ListReceived(s, other, reply); list in t.loads && t.loads[list] == s.loads[list]
  {
  }

  lemma PinnedKeepsRequestId(s: State, id: nat, list: List)
    requires Possible(s, PinnedArrived(id)) && list in s.loads
    ensures var t := Step(s, PinnedArrived(id));
            list in t.loads ==>
              t.loads[list].requestId == s.loads[list].requestId && t.loads[list].listReceived == s.loads[list].listReceived
  {
  }

  // With no request under way a list keeps the request id it has.
  lemma IdleListKeepsRequestId(s: State, list: List, e: Event)
    requires Possible(s, e) && list in s.loads && s.loads[list].requestId != 0
    requires forall id :: id in s.inFlight ==> s.inFlight[id] != GetDialogs(list)
    ensures var t := Step(s, e);
            list in t.loads ==>
              t.loads[list].requestId == s.loads[list].requestId && t.loads[list].listReceived == s.loads[list].listReceived
  {
    match e
    case ListDone(id, reply) =>
      hide Refreshed, ListReceived;
      var other := s.inFlight[id].list;
      assert s.inFlight[id] == GetDialogs(other);
      var t := s.(inFlight := s.inFlight - {id});
      ReceivedKeepsOthers(t, other, reply, list);
      RefreshedLoads(ListReceived(t, other, reply));
    case ListFail(id) => assert s.inFlight[id] == GetDialogs(s.inFlight[id].list);
    case PinnedArrived(id) =>
      hide Step;
      PinnedKeepsRequestId(s, id, list);
    case _ =>
      hide Step;
      RequestStepIsQuiet(s, e);
  }

  lemma StepKeepsComplete(s: State, list: List, e: Event)
    requires Inv(s) && Possible(s, e) && list in s.loads && s.loads[list].listReceived
    requires CompleteList(s, list, s.loads[list].requestId)
    ensures var t := Step(s, e);
            if list in t.loads then
              t.loads[list].listReceived && t.loads[list].requestId == s.loads[list].requestId
              && t.done[list] == s.done[list]
            else t.done[list] == s.done[list] + 1
  {
    hide Step, Inv;
    DoneWhenTheLaterArrives(s, e);
    IdleListKeepsRequestId(s, list, e);
  }

  // ---- Which lists can still be done ----

  // A page was answered as not modified: its request id stays, and no request is under way.
  ghost predicate Dead(s: State, list: List) {
    && list in s.loads && s.loads[list].requestId != 0 && !s.loads[list].listReceived
    && forall id :: id in s.inFlight ==> s.inFlight[id] != GetDialogs(list)
  }

  // Loading is blocked by date only for a main list that is there, not complete, and has no request.
  predicate BlockInv(s: State) {
    s.blockedByDate ==> None in s.loads && !s.loads[None].listReceived && s.loads[None].requestId == 0
  }

  lemma RefreshedBlocks(s: State)
    ensures BlockInv(Refreshed(s))
  {
  }

  lemma DialogsRequestedBlocks(s: State, list: List)
    requires BlockInv(s)
    ensures BlockInv(DialogsRequested(s, list)) && BlockInv(MoreRequested(s, list)) && BlockInv(PinnedRequested(s, list))
  {
  }

  lemma StepKeepsBlockInv(s: State, e: Event)
    requires Inv(s) && BlockInv(s) && Possible(s, e)
    ensures BlockInv(Step(s, e))
  {
    match e
    case MoreBlockedByDate(now, slice) =>
      hide Inv, DialogsRequested, Refreshed;
      if None in s.loads {
        var offset := s.loads[None].offsetDate;
        var t := s.(loadTill := (if offset != 0 then offset else now) - slice);
        RefreshedBlocks(t);
        DialogsRequestedBlocks(Refreshed(t), None);
      }
    case ListDone(id, reply) =>
      assert RequestInv(s, id);
      hide Inv, Refreshed;
      RefreshedBlocks(ListReceived(s.(inFlight := s.inFlight - {id}), s.inFlight[id].list, reply));
    case ListFail(id) => assert RequestInv(s, id);
    case PinnedArrived(id) =>
    case RequestDialogs(list) =>
      hide Inv, DialogsRequested, MoreRequested, PinnedRequested;
      DialogsRequestedBlocks(s, list);
    case RequestMore(list) =>
      hide Inv, DialogsRequested, MoreRequested, PinnedRequested;
      DialogsRequestedBlocks(s, list);
    case RequestPinned(list) =>
      hide Inv, DialogsRequested, MoreRequested, PinnedRequested;
      DialogsRequestedBlocks(s, list);
  }

  lemma {:induction false} RunKeepsBlockInv(s: State, es: seq<Event>)
    requires Inv(s) && BlockInv(s) && PossibleRun(s, es)
    ensures BlockInv(Run(s, es))
    decreases |es|
  {
    hide Inv, BlockInv, Possible, Step;
    if es != [] {
      StepKeepsInv(s, es[0]);
      StepKeepsBlockInv(s, es[0]);
      RunKeepsBlockInv(Step(s, es[0]), es[1..]);
    }
  }

  // Requests under way stay what they are, and new ones get new ids.
  ghost predicate NewIdsOnly(s: State, t: State) {
    s.lastId <= t.lastId
    && forall r :: r in t.inFlight ==> r > s.lastId || (r in s.inFlight && t.inFlight[r] == s.inFlight[r])
  }

  lemma PinnedGetsNewId(s: State, list: List)
    ensures NewIdsOnly(s, PinnedRequested(s, list))
  {
  }

  lemma MoreGetsNewIds(s: State, list: List)
    ensures NewIdsOnly(s, MoreRequested(s, list))
  {
    hide PinnedRequested, Refreshed;
    if list in s.loads && s.loads[list].requestId == 0 && !s.blockedByDate {
      var t := ListRequested(s, list);
      PinnedGetsNewId(t, list);
      RefreshedRequests(t);
      RefreshedRequests(PinnedRequested(t, list));
    }
  }

  lemma RefreshedRequests(s: State)
    ensures Refreshed(s).inFlight == s.inFlight && Refreshed(s).lastId == s.lastId
  {
  }

  lemma DialogsGetNewIds(s: State, list: List)
    ensures NewIdsOnly(s, DialogsRequested(s, list))
  {
    hide MoreRequested;
    MoreGetsNewIds(if list.Some? && list !in s.loads
                   then s.(loads := s.loads[list := NEW_LOAD], created := s.created + multiset{list}) else s,
                   list);
  }

  lemma ReceivedRequests(s: State, list: List, reply: Reply)
    ensures ListReceived(s, list, reply).inFlight == s.inFlight && ListReceived(s, list, reply).lastId == s.lastId
  {
  }

  lemma StepGetsNewIds(s: State, e: Event)
    requires Possible(s, e)
    ensures NewIdsOnly(s, Step(s, e))
  {
    hide DialogsRequested, MoreRequested, PinnedRequested, Refreshed, ListReceived;
    match e
    case RequestDialogs(list) => DialogsGetNewIds(s, list);
    case RequestMore(list) => MoreGetsNewIds(s, list);
    case RequestPinned(list) => PinnedGetsNewId(s, list);
    case MoreBlockedByDate(now, slice) =>
      if None in s.loads {
        var offset := s.loads[None].offsetDate;
        var t := s.(loadTill := (if offset != 0 then offset else now) - slice);
        RefreshedRequests(t);
        DialogsGetNewIds(Refreshed(t), None);
      }
    case ListDone(id, reply) =>
      var t := s.(inFlight := s.inFlight - {id});
      ReceivedRequests(t, s.inFlight[id].list, reply);
      RefreshedRequests(ListReceived(t, s.inFlight[id].list, reply));
    case ListFail(id) =>
    case PinnedArrived(id) =>
  }

  lemma DeadStep(s: State, list: List, e: Event)
    requires Inv(s) && Dead(s, list) && Possible(s, e)
    ensures Dead(Step(s, e), list)
  {
    var t := Step(s, e);
    StepKeepsInv(s, e);
    StepGetsNewIds(s, e);
    DoneWhenTheLaterArrives(s, e);
    DeadKeepsRequestId(s, list, e);
    assert IdInv(s, list);
    forall id | id in t.inFlight ensures t.inFlight[id] != GetDialogs(list) {
      assert RequestInv(t, id);
    }
  }

  lemma DeadKeepsRequestId(s: State, list: List, e: Event)
    requires Inv(s) && Dead(s, list) && Possible(s, e)
    ensures var t := Step(s, e);
            list in t.loads && t.loads[list].requestId == s.loads[list].requestId && !t.loads[list].listReceived
  {
    hide Step, Inv;
    DoneWhenTheLaterArrives(s, e);
    IdleListKeepsRequestId(s, list, e);
  }

  lemma {:induction false} DeadForever(s: State, list: List, es: seq<Event>)
    requires Inv(s) && Dead(s, list) && PossibleRun(s, es)
    ensures Dead(Run(s, es), list)
    decreases |es|
  {
    hide Inv, Dead, Possible, Step;
    if es != [] {
      StepKeepsInv(s, es[0]);
      DeadStep(s, list, es[0]);
      DeadForever(Step(s, es[0]), list, es[1..]);
    }
  }

  // Some run does the list.
  ghost predicate CanFinish(s: State, list: List) {
    exists es :: Finishes(s, es, list)
  }

  ghost predicate Finishes(s: State, es: seq<Event>, list: List) {
    PossibleRun(s, es) && list !in Run(s, es).loads
  }

  lemma CanFinishBefore(s: State, e: Event, list: List)
    requires Possible(s, e) && CanFinish(Step(s, e), list)
    ensures CanFinish(s, list)
  {
    hide Possible, Step;
    var es :| Finishes(Step(s, e), es, list);
    assert ([e] + es)[1..] == es;
    assert Finishes(s, [e] + es, list);
  }

  lemma FinishedCanFinish(s: State, list: List)
    requires list !in s.loads
    ensures CanFinish(s, list)
  {
    assert Finishes(s, [], list);
  }

  lemma CompleteListCanFinish(s: State, list: List)
    requires Inv(s) && list in s.loads && s.loads[list].listReceived
    ensures CanFinish(s, list)
  {
    hide CanFinish;
    assert LoadInv(s, list);
    if s.loads[list].pinnedRequestId != 0 {
      var e := PinnedArrived(s.loads[list].pinnedRequestId);
      FinishedCanFinish(Step(s, e), list);
      CanFinishBefore(s, e, list);
    } else {
      var e, f := RequestPinned(list), PinnedArrived(s.lastId + 1);
      var t := Step(s, e);
      FinishedCanFinish(Step(t, f), list);
      CanFinishBefore(t, f, list);
      CanFinishBefore(s, e, list);
    }
  }

  lemma RequestedListCanFinish(s: State, list: List, id: nat)
    requires Inv(s) && id in s.inFlight && s.inFlight[id] == GetDialogs(list)
    ensures CanFinish(s, list)
  {
    var e := ListDone(id, Complete);
    var t := Step(s, e);
    assert RequestInv(s, id);
    StepKeepsInv(s, e);
    ReceivedFinishes(s.(inFlight := s.inFlight - {id}), list, Complete);
    RefreshedLoads(ListReceived(s.(inFlight := s.inFlight - {id}), list, Complete));
    hide CanFinish, Refreshed, Inv, RequestInv;
    if list in t.loads {
      CompleteListCanFinish(t, list);
    } else {
      FinishedCanFinish(t, list);
    }
    CanFinishBefore(s, e, list);
  }

  lemma MoreIsSent(s: State, list: List)
    requires list in s.loads && s.loads[list].requestId == 0 && !s.blockedByDate
    ensures var t := MoreRequested(s, list);
            s.lastId + 1 in t.inFlight && t.inFlight[s.lastId + 1] == GetDialogs(list)
            && (list.None? ==> !t.blockedByDate)
            && (forall other :: other in s.loads && other != list ==> other in t.loads && t.loads[other] == s.loads[other])
  {
  }

  lemma IdleListCanFinish(s: State, list: List)
    requires Inv(s) && BlockInv(s) && list in s.loads && s.loads[list].requestId == 0
    ensures CanFinish(s, list)
  {
    hide CanFinish, Inv, MoreRequested, DialogsRequested;
    if s.blockedByDate {
      var offset := s.loads[None].offsetDate;
      var e := MoreBlockedByDate(0, offset);
      var u := Refreshed(s.(loadTill := 0));
      assert Step(s, e) == DialogsRequested(u, None) == MoreRequested(u, None) by { MainListIsRequested(s, offset); }
      var t := Step(s, e);
      MoreIsSent(u, None);
      StepKeepsInv(s, e);
      if list.None? {
        RequestedListCanFinish(t, list, u.lastId + 1);
      } else {
        IdleListIsRequested(t, list);
      }
      CanFinishBefore(s, e, list);
    } else {
      IdleListIsRequested(s, list);
    }
  }

  lemma MainListIsRequested(s: State, offset: int)
    requires None in s.loads && s.loads[None].offsetDate == offset
    ensures var u := Refreshed(s.(loadTill := 0));
            Step(s, MoreBlockedByDate(0, offset)) == DialogsRequested(u, None) == MoreRequested(u, None)
  {
    hide MoreRequested;
  }

  lemma IdleListIsRequested(s: State, list: List)
    requires Inv(s) && list in s.loads && s.loads[list].requestId == 0 && !s.blockedByDate
    ensures CanFinish(s, list)
  {
    hide CanFinish, Inv, MoreRequested;
    var e := RequestMore(list);
    MoreIsSent(s, list);
    StepKeepsInv(s, e);
    RequestedListCanFinish(Step(s, e), list, s.lastId + 1);
    CanFinishBefore(s, e, list);
  }

  // A list can still be done exactly when it is complete, has no request, or its request is under way.
  lemma ListCanBeDoneIff(es: seq<Event>, list: List)
    requires PossibleRun(INITIAL, es) && list in Run(INITIAL, es).loads
    ensures var s := Run(INITIAL, es);
            var load := s.loads[list];
            CanFinish(s, list)
            <==> load.listReceived || load.requestId == 0 || (load.requestId in s.inFlight
                                                              && s.inFlight[load.requestId] == GetDialogs(list))
  {
    hide Run, PossibleRun, CanFinish, BlockInv;
    var s := Run(INITIAL, es);
    InitialInv();
    assert BlockInv(INITIAL) by { InitialBlockInv(); }
    RunKeepsInv(INITIAL, es);
    RunKeepsBlockInv(INITIAL, es);
    DeadOrNot(s, list);
  }

  lemma InitialBlockInv()
    ensures BlockInv(INITIAL)
  {
  }

  lemma DeadOrNot(s: State, list: List)
    requires Inv(s) && BlockInv(s) && list in s.loads
    ensures var load := s.loads[list];
            CanFinish(s, list)
            <==> load.listReceived || load.requestId == 0 || (load.requestId in s.inFlight
                                                              && s.inFlight[load.requestId] == GetDialogs(list))
  {
    var load := s.loads[list];
    if load.listReceived {
      CompleteListCanFinish(s, list);
    } else if load.requestId == 0 {
      IdleListCanFinish(s, list);
    } else if load.requestId in s.inFlight && s.inFlight[load.requestId] == GetDialogs(list) {
      RequestedListCanFinish(s, list, load.requestId);
    } else {
      forall id | id in s.inFlight ensures s.inFlight[id] != GetDialogs(list) {
        assert RequestInv(s, id);
      }
      forall es | PossibleRun(s, es) ensures !Finishes(s, es, list) {
        DeadForever(s, list, es);
      }
    }
  }

  lemma TwoEvents(s: State, e: Event, f: Event)
    requires Possible(s, e) && Possible(Step(s, e), f)
    ensures PossibleRun(s, [e, f]) && Run(s, [e, f]) == Step(Step(s, e), f)
  {
    hide Step, Possible;
    var t := Step(s, e);
    assert [e, f][1..] == [f] && [f][1..] == [];
    assert PossibleRun(Step(t, f), []);
    assert PossibleRun(t, [f]) && Run(t, [f]) == Step(t, f);
  }

  lemma NotModifiedKillsList(s: State, id: nat)
    requires Inv(s) && id in s.inFlight && s.inFlight[id].GetDialogs?
    ensures Dead(Step(s, ListDone(id, NotModified)), s.inFlight[id].list)
  {
    hide Refreshed;
    var list := s.inFlight[id].list;
    var t := s.(inFlight := s.inFlight - {id});
    RefreshedLoads(t);
    assert RequestInv(s, id);
    forall other | other in t.inFlight ensures t.inFlight[other] != GetDialogs(list) {
      assert RequestInv(s, other);
    }
  }

  // It does happen: the first page is answered as not modified.
  lemma NotModifiedIsForever()
    ensures var es := [RequestMore(None), ListDone(1, NotModified)];
            PossibleRun(INITIAL, es) && Dead(Run(INITIAL, es), None) && !CanFinish(Run(INITIAL, es), None)
  {
    var e, f := RequestMore(None), ListDone(1, NotModified);
    var s := Step(INITIAL, e);
    MoreIsSent(INITIAL, None);
    InitialInv();
    hide Inv, Step, Dead;
    StepKeepsInv(INITIAL, e);
    NotModifiedKillsList(s, 1);
    StepKeepsInv(s, f);
    TwoEvents(INITIAL, e, f);
    forall es | PossibleRun(Step(s, f), es) ensures !Finishes(Step(s, f), es, None) {
      DeadForever(Step(s, f), None, es);
      DeadIsLoading(Run(Step(s, f), es), None);
    }
  }

  lemma DeadIsLoading(s: State, list: List)
    requires Dead(s, list)
    ensures list in s.loads
  {
  }

  // ---- What is sent ----

  // A list that is being loaded has its pinned chats, or their request under way.
  predicate PinnedInv(s: State, list: List) {
    list in s.loads && s.loads[list].requestId != 0 ==>
      s.loads[list].pinnedReceived || s.loads[list].pinnedRequestId != 0
  }

  lemma MoreKeepsPinnedInv(s: State, other: List, list: List)
    requires PinnedInv(s, list)
    ensures PinnedInv(MoreRequested(s, other), list) && PinnedInv(PinnedRequested(s, other), list)
  {
  }

  lemma DialogsKeepPinnedInv(s: State, other: List, list: List)
    requires PinnedInv(s, list)
    ensures PinnedInv(DialogsRequested(s, other), list)
  {
    hide MoreRequested;
    MoreKeepsPinnedInv(if other.Some? && other !in s.loads
                       then s.(loads := s.loads[other := NEW_LOAD], created := s.created + multiset{other}) else s,
                       other, list);
  }

  lemma ReceivedKeepsPinnedInv(s: State, other: List, reply: Reply, list: List)
    requires PinnedInv(s, list)
    ensures PinnedInv(ListReceived(s, other, reply), list)
  {
  }

  lemma StepKeepsPinnedInv(s: State, e: Event, list: List)
    requires PinnedInv(s, list) && Possible(s, e)
    ensures PinnedInv(Step(s, e), list)
  {
    hide DialogsRequested, MoreRequested, PinnedRequested, ListReceived;
    match e
    case RequestDialogs(other) => DialogsKeepPinnedInv(s, other, list);
    case RequestMore(other) => MoreKeepsPinnedInv(s, other, list);
    case RequestPinned(other) => MoreKeepsPinnedInv(s, other, list);
    case MoreBlockedByDate(now, slice) =>
      if None in s.loads {
        var offset := s.loads[None].offsetDate;
        var t := Refreshed(s.(loadTill := (if offset != 0 then offset else now) - slice));
        DialogsKeepPinnedInv(t, None, list);
      }
    case ListDone(id, reply) =>
      hide Refreshed;
      var t := s.(inFlight := s.inFlight - {id});
      ReceivedKeepsPinnedInv(t, s.inFlight[id].list, reply, list);
      RefreshedLoads(ListReceived(t, s.inFlight[id].list, reply));
    case ListFail(id) =>
    case PinnedArrived(id) =>
  }

  lemma {:induction false} RunKeepsPinnedInv(s: State, es: seq<Event>, list: List)
    requires PinnedInv(s, list) && PossibleRun(s, es)
    ensures PinnedInv(Run(s, es), list)
    decreases |es|
  {
    hide PinnedInv, Possible, Step;
    if es != [] {
      StepKeepsPinnedInv(s, es[0], list);
      RunKeepsPinnedInv(Step(s, es[0]), es[1..], list);
    }
  }

  // In every run, a list whose pages were asked for has its pinned chats or their request under way; so once the
  // list is complete, that answer alone does it.
  lemma PinnedChatsAreRequested(es: seq<Event>, list: List)
    requires PossibleRun(INITIAL, es)
    requires list in Run(INITIAL, es).loads && Run(INITIAL, es).loads[list].requestId != 0
    ensures var s := Run(INITIAL, es);
            var load := s.loads[list];
            && (load.pinnedReceived
                || (load.pinnedRequestId in s.inFlight && s.inFlight[load.pinnedRequestId] == GetPinnedDialogs(list)))
            && (load.listReceived ==>
                  load.pinnedRequestId in s.inFlight && s.inFlight[load.pinnedRequestId] == GetPinnedDialogs(list)
                  && Step(s, PinnedArrived(load.pinnedRequestId)).done == s.done + multiset{list}
                  && Step(s, PinnedArrived(load.pinnedRequestId)).loads == s.loads - {list})
  {
    hide Run, PossibleRun;
    var s := Run(INITIAL, es);
    InitialInv();
    RunKeepsInv(INITIAL, es);
    RunKeepsPinnedInv(INITIAL, es, list);
    assert LoadInv(s, list);
    if s.loads[list].listReceived {
      DoneWhenTheLaterArrives(s, PinnedArrived(s.loads[list].pinnedRequestId));
    }
  }

  // A page is asked for unless one is already, or the date blocks it; the offset does not change.
  lemma RequestMoreSends(s: State, list: List)
    ensures var t := Step(s, RequestMore(list));
            if list in s.loads && s.loads[list].requestId == 0 && !s.blockedByDate then
              && s.lastId + 1 in t.inFlight && t.inFlight[s.lastId + 1] == GetDialogs(list)
              && list in t.loads && t.loads[list].requestId == s.lastId + 1
              && t.lastId == s.lastId + (if s.loads[list].pinnedReceived || s.loads[list].pinnedRequestId != 0 then 1 else 2)
              && t.loads[list].offsetDate == s.loads[list].offsetDate && t.loads[list].offsetId == s.loads[list].offsetId
              && t.loads[list].offsetPeer == s.loads[list].offsetPeer
            else t == s
  {
  }

  // A folder asked for the first time gets a load state.
  lemma FolderIsLoaded(s: State, list: List)
    requires list.Some? && list !in s.loads
    ensures var t := Step(s, RequestDialogs(list));
            && list in t.loads && t.created == s.created + multiset{list}
            && t.loads[list].offsetDate == 0 && !t.loads[list].listReceived && !t.loads[list].pinnedReceived
            && if s.blockedByDate then t.inFlight == s.inFlight
               else s.lastId + 1 in t.inFlight && t.inFlight[s.lastId + 1] == GetDialogs(list)
  {
  }

  // The pinned chats are asked for unless they are there or asked for.
  lemma RequestPinnedSends(s: State, list: List)
    ensures var t := Step(s, RequestPinned(list));
            if list in s.loads && !s.loads[list].pinnedReceived && s.loads[list].pinnedRequestId == 0 then
              t.inFlight == s.inFlight[s.lastId + 1 := GetPinnedDialogs(list)] && t.lastId == s.lastId + 1
              && t.loads == s.loads[list := s.loads[list].(pinnedRequestId := s.lastId + 1)]
            else t == s
  {
  }

  // The limit is a slice before the offset date, or before now; the main list is blocked once its offset date
  // has come down to the limit and no page of it is under way.
  lemma LimitIsSet(s: State, now: int, slice: int)
    requires None in s.loads
    ensures var t := Step(s, MoreBlockedByDate(now, slice));
            var date := s.loads[None].offsetDate;
            && t.loadTill == (if date == 0 then now - slice else date - slice)
            && (s.loads[None].requestId == 0 && !s.loads[None].listReceived ==>
                  if 0 < date <= t.loadTill then t.blockedByDate && t.inFlight == s.inFlight
                  else s.lastId + 1 in t.inFlight && t.inFlight[s.lastId + 1] == GetDialogs(None))
  {
  }

  // After a page of the main list it is blocked exactly when the page's date is at or before the limit.
  lemma PageBlocksIff(s: State, id: nat, date: int, msgId: nat, peer: nat)
    requires id in s.inFlight && s.inFlight[id] == GetDialogs(None) && date != 0
    requires None in s.loads && !s.loads[None].listReceived
    ensures var t := Step(s, ListDone(id, Slice(date, msgId, peer)));
            t.blockedByDate <==> s.loadTill > 0 && 0 < date <= s.loadTill
  {
  }

  // Over every run each load state is done at most once: as many were done as were created and are gone.
  lemma DoneOncePerLoad(es: seq<Event>, list: List)
    requires PossibleRun(INITIAL, es)
    ensures var s := Run(INITIAL, es);
            s.created[list] == s.done[list] + if list in s.loads then 1 else 0
    ensures Run(INITIAL, es).done[None] <= 1
  {
    InitialInv();
    RunKeepsInv(INITIAL, es);
    assert CountInv(Run(INITIAL, es), list) && CountInv(Run(INITIAL, es), None);
    MainListIsCreatedOnce(INITIAL, es);
  }

  lemma RequestsCreateNothing(s: State, list: List)
    ensures Refreshed(s).created == PinnedRequested(s, list).created == MoreRequested(s, list).created == s.created
  {
  }

  lemma ReceivingCreatesNothing(s: State, list: List, reply: Reply)
    ensures ListReceived(s, list, reply).created == s.created
  {
  }

  lemma MainListIsNotCreated(s: State, e: Event)
    requires Possible(s, e)
    ensures Step(s, e).created[None] == s.created[None]
  {
    hide Refreshed, PinnedRequested, MoreRequested, ListReceived;
    match e
    case RequestDialogs(list) =>
      RequestsCreateNothing(if list.Some? && list !in s.loads
                            then s.(loads := s.loads[list := NEW_LOAD], created := s.created + multiset{list}) else s,
                            list);
    case RequestMore(list) => RequestsCreateNothing(s, list);
    case RequestPinned(list) => RequestsCreateNothing(s, list);
    case MoreBlockedByDate(now, slice) =>
      if None in s.loads {
        var offset := s.loads[None].offsetDate;
        var t := s.(loadTill := (if offset != 0 then offset else now) - slice);
        RequestsCreateNothing(t, None);
        RequestsCreateNothing(Refreshed(t), None);
      }
    case ListDone(id, reply) =>
      var t := s.(inFlight := s.inFlight - {id});
      ReceivingCreatesNothing(t, s.inFlight[id].list, reply);
      RequestsCreateNothing(ListReceived(t, s.inFlight[id].list, reply), None);
    case ListFail(id) =>
    case PinnedArrived(id) =>
  }

  lemma {:induction false} MainListIsCreatedOnce(s: State, es: seq<Event>)
    requires PossibleRun(s, es)
    ensures Run(s, es).created[None] == s.created[None]
    decreases |es|
  {
    hide Step, Possible;
    if es != [] {
      MainListIsNotCreated(s, es[0]);
      MainListIsCreatedOnce(Step(s, es[0]), es[1..]);
    }
  }

  // ---- The offset of the next page ----

  // A chat of a page, with the id of its top message (0 for none); a message, with its date.
  datatype Dialog = Dialog(peer: nat, topMessage: nat)
  datatype Message = Message(peer: nat, id: nat, date: int)

  predicate Usable(d: Dialog) {
    d.peer != 0 && d.topMessage != 0
  }

  // The date of the last of the messages that is the chat's top message, or 0.
  function TopDate(d: Dialog, messages: seq<Message>): int {
    if messages == [] then 0
    else
      var m := messages[|messages| - 1];
      if m.id == d.topMessage && m.peer == d.peer then m.date else TopDate(d, messages[..|messages| - 1])
  }

  // The last chat from which on, backwards, a date is found, or none.
  function LastDated(dialogs: seq<Dialog>, messages: seq<Message>): (i: Option<nat>)
    ensures i.Some? ==> i.value < |dialogs| && Usable(dialogs[i.value])
  {
    if dialogs == [] then None
    else
      var d := dialogs[|dialogs| - 1];
      if Usable(d) && TopDate(d, messages) != 0 then Some(|dialogs| - 1)
      else LastDated(dialogs[..|dialogs| - 1], messages)
  }

  function LastUsable(dialogs: seq<Dialog>): (i: Option<nat>)
    ensures i.Some? ==> i.value < |dialogs| && Usable(dialogs[i.value])
  {
    if dialogs == [] then None
    else if Usable(dialogs[|dialogs| - 1]) then Some(|dialogs| - 1)
    else LastUsable(dialogs[..|dialogs| - 1])
  }

  // The date is that of the last message with the chat's top message id and the chat's peer.
  lemma {:induction false} TopDateIs(d: Dialog, messages: seq<Message>, k: nat)
    requires k <= |messages| && (k > 0 ==> messages[k - 1].id == d.topMessage && messages[k - 1].peer == d.peer)
    requires forall i :: k <= i < |messages| ==> messages[i].id != d.topMessage || messages[i].peer != d.peer
    ensures TopDate(d, messages) == if k > 0 then messages[k - 1].date else 0
    decreases |messages|
  {
    if k < |messages| {
      TopDateIs(d, messages[..|messages| - 1], k);
    }
  }

  // The last chat with a peer and a top message, and the last of those with a date.
  lemma {:induction false} LastUsableIs(dialogs: seq<Dialog>, k: nat)
    requires k <= |dialogs| && (k > 0 ==> dialogs[k - 1].peer != 0 && dialogs[k - 1].topMessage != 0)
    requires forall i :: k <= i < |dialogs| ==> dialogs[i].peer == 0 || dialogs[i].topMessage == 0
    ensures LastUsable(dialogs) == if k > 0 then Some(k - 1) else None
    decreases |dialogs|
  {
    if k < |dialogs| {
      LastUsableIs(dialogs[..|dialogs| - 1], k);
    }
  }

  lemma {:induction false} LastDatedIs(dialogs: seq<Dialog>, messages: seq<Message>, k: nat)
    requires k <= |dialogs|
    requires k > 0 ==> dialogs[k - 1].peer != 0 && dialogs[k - 1].topMessage != 0 && TopDate(dialogs[k - 1], messages) != 0
    requires forall i :: k <= i < |dialogs| ==>
               dialogs[i].peer == 0 || dialogs[i].topMessage == 0 || TopDate(dialogs[i], messages) == 0
    ensures LastDated(dialogs, messages) == if k > 0 then Some(k - 1) else None
    decreases |dialogs|
  {
    hide TopDate;
    if k < |dialogs| {
      LastDatedIs(dialogs[..|dialogs| - 1], messages, k);
    }
  }

  // updateDialogsOffset's search. The date is of the last chat whose top message came with a date, but the
  // message id and the peer are of the last usable chat, dated or not.
  method FindOffset(dialogs: seq<Dialog>, messages: seq<Message>) returns (date: int, msgId: nat, peer: nat)
    ensures date == match LastDated(dialogs, messages)
                    case Some(i) => TopDate(dialogs[i], messages)
                    case None => 0
    ensures match LastUsable(dialogs)
            case Some(i) => msgId == dialogs[i].topMessage && peer == dialogs[i].peer
            case None => msgId == 0 && peer == 0
  {
    date, msgId, peer := 0, 0, 0;
    var i := |dialogs|;
    assert dialogs[..i] == dialogs;
    while i > 0 && date == 0
      invariant i <= |dialogs|
      invariant date == 0 ==> LastDated(dialogs, messages) == LastDated(dialogs[..i], messages)
      invariant date != 0 ==> i < |dialogs| && LastDated(dialogs, messages) == Some(i) && date == TopDate(dialogs[i], messages)
      invariant if msgId == 0 then peer == 0 && LastUsable(dialogs) == LastUsable(dialogs[..i])
                else LastUsable(dialogs).Some? && i <= LastUsable(dialogs).value
                     && msgId == dialogs[LastUsable(dialogs).value].topMessage
                     && peer == dialogs[LastUsable(dialogs).value].peer
      invariant date != 0 ==> msgId != 0
    {
      i := i - 1;
      var d := dialogs[i];
      assert dialogs[..i + 1][..i] == dialogs[..i];
      if d.peer != 0 && d.topMessage != 0 {
        if peer == 0 {
          peer := d.peer;
        }
        if msgId == 0 {
          msgId := d.topMessage;
        }
        date := FindTopDate(d, messages);
      }
    }
  }

  // The inner loop, over the messages backwards.
  method FindTopDate(d: Dialog, messages: seq<Message>) returns (date: int)
    ensures date == TopDate(d, messages)
  {
    var j := |messages|;
    assert messages[..j] == messages;
    while j > 0
      invariant j <= |messages| && TopDate(d, messages) == TopDate(d, messages[..j])
    {
      j := j - 1;
      assert messages[..j + 1][..j] == messages[..j];
      if messages[j].id == d.topMessage && messages[j].peer == d.peer {
        return messages[j].date;
      }
    }
    date := 0;
  }

  // ---- The object ----

  // MTPmessages_Dialogs
  datatype Page = PageNotModified | Dialogs | DialogsSlice(dialogs: seq<Dialog>, messages: seq<Message>)

  function OffsetDate(dialogs: seq<Dialog>, messages: seq<Message>): int {
    match LastDated(dialogs, messages)
    case Some(i) => TopDate(dialogs[i], messages)
    case None => 0
  }

  function ReplyOf(page: Page): Reply {
    match page
    case PageNotModified => NotModified
    case Dialogs => Complete
    case DialogsSlice(dialogs, messages) =>
      var last := LastUsable(dialogs);
      Slice(OffsetDate(dialogs, messages),
            if last.Some? then dialogs[last.value].topMessage else 0,
            if last.Some? then dialogs[last.value].peer else 0)
  }

  // The two searches find the same chat exactly when the last usable chat's top message came with a date.
  lemma {:induction false} SameChatIff(dialogs: seq<Dialog>, messages: seq<Message>)
    requires LastDated(dialogs, messages).Some?
    ensures LastUsable(dialogs).Some?
    ensures LastDated(dialogs, messages) == LastUsable(dialogs)
            <==> TopDate(dialogs[LastUsable(dialogs).value], messages) != 0
  {
    var n := |dialogs| - 1;
    if !Usable(dialogs[n]) {
      SameChatIff(dialogs[..n], messages);
    } else if TopDate(dialogs[n], messages) == 0 {
      var i := LastDated(dialogs[..n], messages).value;
      assert i < n;
      assert LastUsable(dialogs) == Some(n);
    }
  }

  // So the offset that a page leaves is that of one chat, its date with its message and peer, exactly when the
  // last usable chat of the page came with a date; otherwise the date is another chat's.
  lemma OffsetIsOfOneChatIff(s: State, id: nat, dialogs: seq<Dialog>, messages: seq<Message>)
    requires Inv(s) && id in s.inFlight && s.inFlight[id].GetDialogs? && LastDated(dialogs, messages).Some?
    ensures var list := s.inFlight[id].list;
            var t := Step(s, ListDone(id, ReplyOf(DialogsSlice(dialogs, messages))));
            && list in t.loads && LastUsable(dialogs).Some?
            && var chat := dialogs[LastUsable(dialogs).value];
            && t.loads[list].offsetId == chat.topMessage && t.loads[list].offsetPeer == chat.peer
            && t.loads[list].offsetDate == TopDate(dialogs[LastDated(dialogs, messages).value], messages) != 0
            && (t.loads[list].offsetDate == TopDate(chat, messages) <==> TopDate(chat, messages) != 0)
            && (LastDated(dialogs, messages) == LastUsable(dialogs) <==> TopDate(chat, messages) != 0)
  {
    hide Inv, Refreshed, TopDate, LastDated, LastUsable;
    var list := s.inFlight[id].list;
    SameChatIff(dialogs, messages);
    LastDatedHasDate(dialogs, messages);
    OneRequestInState(s, id);
    RefreshedLoads(ListReceived(s.(inFlight := s.inFlight - {id}), list, ReplyOf(DialogsSlice(dialogs, messages))));
  }

  lemma {:induction false} LastDatedHasDate(dialogs: seq<Dialog>, messages: seq<Message>)
    requires LastDated(dialogs, messages).Some?
    ensures TopDate(dialogs[LastDated(dialogs, messages).value], messages) != 0
  {
    var n := |dialogs| - 1;
    if !(Usable(dialogs[n]) && TopDate(dialogs[n], messages) != 0) {
      LastDatedHasDate(dialogs[..n], messages);
    }
  }

  // It does happen: of two chats only the first one's message came along.
  lemma OffsetOfTwoChats()
    ensures ReplyOf(DialogsSlice([Dialog(1, 10), Dialog(2, 20)], [Message(1, 10, 5)])) == Slice(5, 20, 2)
  {
    var a, b, ms := Dialog(1, 10), Dialog(2, 20), [Message(1, 10, 5)];
    assert ms[..0] == [] && [a, b][..1] == [a];
    assert TopDate(a, ms) == 5;
    assert TopDate(b, ms) == TopDate(b, []) == 0;
    assert LastDated([a], ms) == Some(0);
    assert LastDated([a, b], ms) == Some(0);
    assert LastUsable([a, b]) == Some(1);
  }

  class ApiWrap {
    var loads: map<List, LoadState>   // _dialogsLoadState under None, and _foldersLoadState
    var dialogsLoadTill: int
    var dialogsLoadBlockedByDate: bool
    var lastId: nat
    var inFlight: map<nat, Request>   // what the handlers under way have captured
    ghost var created: multiset<List>
    ghost var done: multiset<List>    // chatsListDone posted

    ghost function Abs(): State
      reads this
    {
      State(loads, dialogsLoadTill, dialogsLoadBlockedByDate, lastId, inFlight, created, done)
    }

    constructor ()
      ensures Abs() == INITIAL && Inv(Abs())
    {
      loads, dialogsLoadTill, dialogsLoadBlockedByDate := map[None := NEW_LOAD], 0, false;
      lastId, inFlight, created, done := 0, map[], multiset{None}, multiset{};
      InitialInv();
    }

    method RequestDialogs(list: List)
      modifies this
      ensures Abs() == Step(old(Abs()), Event.RequestDialogs(list))
    {
      if list.Some? && list !in loads {
        loads := loads[list := NEW_LOAD];
        created := created + multiset{list};
      }
      RequestMoreDialogs(list);
    }

    method RequestMoreDialogs(list: List)
      modifies this
      ensures Abs() == MoreRequested(old(Abs()), list)
    {
      hide Refreshed, PinnedRequested;
      if list !in loads {
        return;
      } else if loads[list].requestId != 0 {
        return;
      } else if dialogsLoadBlockedByDate {
        return;
      }
      lastId := lastId + 1;
      loads := loads[list := loads[list].(requestId := lastId)];
      inFlight := inFlight[lastId := GetDialogs(list)];
      assert Abs() == ListRequested(old(Abs()), list);
      if !loads[list].pinnedReceived {
        RequestPinnedDialogs(list);
      }
      if list.None? {
        RefreshDialogsLoadBlocked();
      }
    }

    method RefreshDialogsLoadBlocked()
      modifies this`dialogsLoadBlockedByDate
      ensures Abs() == Refreshed(old(Abs()))
    {
      dialogsLoadBlockedByDate :=
        None in loads && !loads[None].listReceived && loads[None].requestId == 0 && dialogsLoadTill > 0
        && loads[None].offsetDate > 0 && loads[None].offsetDate <= dialogsLoadTill;
    }

    method RequestPinnedDialogs(list: List)
      modifies this
      ensures Abs() == PinnedRequested(old(Abs()), list)
    {
      if list !in loads || loads[list].pinnedReceived || loads[list].pinnedRequestId != 0 {
        return;
      }
      lastId := lastId + 1;
      loads := loads[list := loads[list].(pinnedRequestId := lastId)];
      inFlight := inFlight[lastId := GetPinnedDialogs(list)];
    }

    method RequestMoreBlockedByDateDialogs(now: int, slice: int)
      modifies this
      ensures Abs() == Step(old(Abs()), MoreBlockedByDate(now, slice))
    {
      if None !in loads {
        return;
      }
      dialogsLoadTill := if loads[None].offsetDate != 0 then loads[None].offsetDate - slice else now - slice;
      RefreshDialogsLoadBlocked();
      RequestDialogs(None);
    }

    method DialogsLoadFinish(list: List)
      modifies this
      ensures Abs() == Finished(old(Abs()), list)
    {
      if list !in loads || !loads[list].listReceived || !loads[list].pinnedReceived {
        return;
      }
      loads := loads - {list};
      done := done + multiset{list};
    }

    method UpdateDialogsOffset(list: List, dialogs: seq<Dialog>, messages: seq<Message>)
      modifies this
      ensures Abs() == ListReceived(old(Abs()), list, ReplyOf(DialogsSlice(dialogs, messages)))
    {
      var date, msgId, peer := FindOffset(dialogs, messages);
      if list in loads {
        if date != 0 {
          loads := loads[list := loads[list].(offsetDate := date, offsetId := msgId, offsetPeer := peer, requestId := 0)];
        } else {
          loads := loads[list := loads[list].(listReceived := true)];
          DialogsLoadFinish(list);
        }
      }
    }

    // The done handler of requestMoreDialogs, up to requestMoreDialogsIfNeeded.
    method OnDialogsDone(id: nat, page: Page)
      requires id in inFlight && inFlight[id].GetDialogs?
      modifies this
      ensures Abs() == Step(old(Abs()), ListDone(id, ReplyOf(page)))
    {
      var list := inFlight[id].list;
      inFlight := inFlight - {id};
      match page {
        case PageNotModified =>
        case Dialogs =>
          if list in loads {
            loads := loads[list := loads[list].(listReceived := true)];
            DialogsLoadFinish(list);
          }
        case DialogsSlice(dialogs, messages) =>
          UpdateDialogsOffset(list, dialogs, messages);
      }
      if list.None? && (None !in loads || !loads[None].listReceived) {
        RefreshDialogsLoadBlocked();
      }
    }

    // The fail handler takes it for granted that the load state is there.
    method OnDialogsFail(id: nat)
      requires id in inFlight && inFlight[id].GetDialogs? && Inv(Abs())
      modifies this
      ensures Abs() == Step(old(Abs()), ListFail(id)) && Inv(Abs())
    {
      var list := inFlight[id].list;
      OneRequestInState(Abs(), id);
      ListFailKeepsInv(Abs(), id);
      inFlight := inFlight - {id};
      loads := loads[list := loads[list].(requestId := 0)];
    }

    // The finalize handler of requestPinnedDialogs, done or failed.
    method OnPinnedDialogs(id: nat)
      requires id in inFlight && inFlight[id].GetPinnedDialogs?
      modifies this
      ensures Abs() == Step(old(Abs()), PinnedArrived(id))
    {
      var list := inFlight[id].list;
      inFlight := inFlight - {id};
      if list in loads {
        loads := loads[list := loads[list].(pinnedRequestId := 0, pinnedReceived := true)];
        DialogsLoadFinish(list);
      }
    }
  }
}
