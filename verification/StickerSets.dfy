// Saving the sticker sets of one kind (ApiWrap::saveStickerSets): which sets stay, their flags and order, and
// the requests that tell the server, with the reorder request held back until the others are answered.
module StickerSets {
  import opened Options

  type SetId = nat
  type Document = nat

  // Sets the program makes itself.
  const CLOUD_RECENT: SetId := 0xFFFF_FFFF_FFFF_FFFC
  const CLOUD_RECENT_ATTACHED: SetId := 0xFFFF_FFFF_FFFF_FFF9
  const CUSTOM: SetId := 0xFFFF_FFFF_FFFF_FFFF

  datatype StickersType = Emojis | Masks | Stickers

  datatype StickersSet = StickersSet(
    installed: bool, archived: bool, featured: bool, special: bool, emoji: bool, masks: bool,
    locked: int, installDate: int, stickers: seq<Document>)

  datatype Recent = Recent(document: Document, rating: nat)

  // A request of one save.
  datatype Call = Uninstall(id: SetId) | Install(id: SetId) | ClearRecent(attached: bool)

  function TypeOf(s: StickersSet): StickersType {
    if s.emoji then Emojis else if s.masks then Masks else Stickers
  }

  predicate IsCloud(id: SetId) {
    id == CLOUD_RECENT || id == CLOUD_RECENT_ATTACHED
  }

  predicate RecentRemoved(removed: seq<SetId>) {
    CLOUD_RECENT in removed || CLOUD_RECENT_ATTACHED in removed
  }

  // A set that stays even when it is not installed.
  predicate StaysUninstalled(s: StickersSet) {
    s.featured || s.special || s.emoji || s.locked > 0
  }

  // ---- What a save means for one set ----

  predicate Dropped(id: SetId, s: StickersSet, removed: seq<SetId>) {
    || (RecentRemoved(removed) && (IsCloud(id) || id == CUSTOM))
    || (id in removed && !s.archived && !StaysUninstalled(s))
  }

  function Uninstalled(id: SetId, s: StickersSet, removed: seq<SetId>): StickersSet {
    if id in removed && !s.archived then s.(installed := false, installDate := 0) else s
  }

  function Cleared(s: StickersSet, kind: StickersType): StickersSet {
    if !s.archived && TypeOf(s) == kind then s.(installed := false) else s
  }

  function Placed(id: SetId, s: StickersSet, order: seq<SetId>, removed: seq<SetId>, now: int): StickersSet {
    if id in order then
      s.(archived := s.archived && id in removed, installed := true,
         installDate := if s.installDate == 0 then now else s.installDate)
    else s
  }

  predicate Survives(s: StickersSet) {
    s.installed || s.archived || StaysUninstalled(s)
  }

  // ---- The whole map ----

  function AfterRemovals(sets: map<SetId, StickersSet>, removed: seq<SetId>): map<SetId, StickersSet> {
    map id | id in sets && !Dropped(id, sets[id], removed) :: Uninstalled(id, sets[id], removed)
  }

  function AfterClear(sets: map<SetId, StickersSet>, kind: StickersType): map<SetId, StickersSet> {
    map id | id in sets :: Cleared(sets[id], kind)
  }

  function AfterPlacing(sets: map<SetId, StickersSet>, order: seq<SetId>, removed: seq<SetId>, now: int)
    : map<SetId, StickersSet>
  {
    map id | id in sets :: Placed(id, sets[id], order, removed, now)
  }

  function AfterSweep(sets: map<SetId, StickersSet>): map<SetId, StickersSet> {
    map id | id in sets && Survives(sets[id]) :: sets[id]
  }

  function Saved(sets: map<SetId, StickersSet>, kind: StickersType, order: seq<SetId>, removed: seq<SetId>, now: int)
    : map<SetId, StickersSet>
  {
    map id | id in sets && !Dropped(id, sets[id], removed) && Survives(SavedSet(id, sets[id], kind, order, removed, now))
           :: SavedSet(id, sets[id], kind, order, removed, now)
  }

  function SavedSet(id: SetId, s: StickersSet, kind: StickersType, order: seq<SetId>, removed: seq<SetId>, now: int)
    : StickersSet
  {
    Placed(id, Cleared(Uninstalled(id, s, removed), kind), order, removed, now)
  }

  // Removing, clearing, placing and sweeping, one after another.
  lemma SavedInFourPasses(
      sets: map<SetId, StickersSet>, kind: StickersType, order: seq<SetId>, removed: seq<SetId>, now: int)
    ensures AfterSweep(AfterPlacing(AfterClear(AfterRemovals(sets, removed), kind), order, removed, now))
            == Saved(sets, kind, order, removed, now)
  {
    hide Dropped, Survives, Placed, Cleared, Uninstalled;
  }

  function Known(order: seq<SetId>, known: set<SetId>): (r: seq<SetId>)
    ensures forall id :: id in r <==> id in order && id in known
  {
    if order == [] then []
    else Known(order[..|order| - 1], known) + (if order[|order| - 1] in known then [order[|order| - 1]] else [])
  }

  function SavedOrder(sets: map<SetId, StickersSet>, order: seq<SetId>, removed: seq<SetId>): seq<SetId> {
    Known(order, AfterRemovals(sets, removed).Keys)
  }

  function WithoutDocuments(recent: seq<Recent>, gone: set<Document>): seq<Recent> {
    if recent == [] then []
    else
      var last := recent[|recent| - 1];
      WithoutDocuments(recent[..|recent| - 1], gone) + if last.document in gone then [] else [last]
  }

  function RemovedDocuments(sets: map<SetId, StickersSet>, removed: seq<SetId>): set<Document> {
    set k, d | 0 <= k < |removed| && removed[k] in sets && d in sets[removed[k]].stickers :: d
  }

  function SavedRecent(sets: map<SetId, StickersSet>, removed: seq<SetId>, recent: seq<Recent>): seq<Recent> {
    if RecentRemoved(removed) then [] else WithoutDocuments(recent, RemovedDocuments(sets, removed))
  }

  // The request made for the k-th removed id: a set not archived is uninstalled, again only if it stays.
  function CallAt(sets: map<SetId, StickersSet>, removed: seq<SetId>, k: nat): seq<Call>
    requires k < |removed|
  {
    var id := removed[k];
    if IsCloud(id) then [ClearRecent(id == CLOUD_RECENT_ATTACHED)]
    else if id in sets && !Dropped(id, sets[id], removed[..k]) && !sets[id].archived then [Uninstall(id)]
    else []
  }

  function RemovalCalls(sets: map<SetId, StickersSet>, removed: seq<SetId>, k: nat): seq<Call>
    requires k <= |removed|
  {
    if k == 0 then [] else RemovalCalls(sets, removed, k - 1) + CallAt(sets, removed, k - 1)
  }

  // An archived set that is in the order and not removed is installed, once.
  function InstallCalls(sets: map<SetId, StickersSet>, order: seq<SetId>, removed: seq<SetId>, k: nat): seq<Call>
    requires k <= |order|
  {
    if k == 0 then []
    else
      var id := order[k - 1];
      InstallCalls(sets, order, removed, k - 1)
      + if id in sets && sets[id].archived && id !in removed && id !in order[..k - 1] then [Install(id)] else []
  }

  function SaveCalls(sets: map<SetId, StickersSet>, order: seq<SetId>, removed: seq<SetId>): seq<Call> {
    RemovalCalls(sets, removed, |removed|) + InstallCalls(AfterRemovals(sets, removed), order, removed, |order|)
  }

  // ---- What a save achieves ----

  // Every id of the new order is an installed set; of that kind, the sets that are not archived are installed
  // exactly when they are in the order; and no set is left without a reason.
  lemma SavedSetsFollowTheOrder(
      sets: map<SetId, StickersSet>, kind: StickersType, order: seq<SetId>, removed: seq<SetId>, now: int)
    ensures var after := Saved(sets, kind, order, removed, now);
            var saved := SavedOrder(sets, order, removed);
            && (forall id :: id in saved <==> id in order && id in AfterRemovals(sets, removed))
            && (forall id :: id in saved ==> id in after && after[id].installed)
            && (forall id :: id in after && !after[id].archived && TypeOf(after[id]) == kind ==>
                  (after[id].installed <==> id in saved))
            && (forall id :: id in after ==>
                  var s := after[id];
                  s.featured || s.installed || s.archived || s.special || s.emoji || s.locked > 0)
  {
  }

  // A set that is not archived and is removed without being put into the order is no longer installed, and
  // is there only if it stays uninstalled; one that is archived stays so exactly when it is removed or not
  // in the order.
  lemma RemovedSetsAreUninstalled(
      sets: map<SetId, StickersSet>, kind: StickersType, order: seq<SetId>, removed: seq<SetId>, now: int, id: SetId)
    requires id in sets && !(RecentRemoved(removed) && (IsCloud(id) || id == CUSTOM))
    ensures var after := Saved(sets, kind, order, removed, now);
            && (!sets[id].archived && id in removed && id !in order ==>
                  (id in after <==> StaysUninstalled(sets[id])) && (id in after ==> !after[id].installed))
            && (sets[id].archived ==>
                  id in after && (after[id].archived <==> (id in removed || id !in order))
                  && (id in order ==> after[id].installed))
  {
  }

  // A set of another kind that is in neither list is as before.
  lemma OtherKindsAreUntouched(
      sets: map<SetId, StickersSet>, kind: StickersType, order: seq<SetId>, removed: seq<SetId>, now: int, id: SetId)
    requires id in sets && TypeOf(sets[id]) != kind && id !in order && id !in removed && Survives(sets[id])
    requires !(RecentRemoved(removed) && (IsCloud(id) || id == CUSTOM))
    ensures var after := Saved(sets, kind, order, removed, now); id in after && after[id] == sets[id]
  {
  }

  // Every set after a save, field by field. The ids are those of the recent, the attached recent and the
  // custom stickers, which go together.
  lemma EverySetAfterSave(
      sets: map<SetId, StickersSet>, kind: StickersType, order: seq<SetId>, removed: seq<SetId>, now: int, id: SetId)
    requires id in sets
    ensures var s := sets[id];
            var after := Saved(sets, kind, order, removed, now);
            var stays := s.featured || s.special || s.emoji || s.locked > 0;
            var recentGone := 0xFFFF_FFFF_FFFF_FFFC in removed || 0xFFFF_FFFF_FFFF_FFF9 in removed;
            var isRecent := id == 0xFFFF_FFFF_FFFF_FFFC || id == 0xFFFF_FFFF_FFFF_FFF9 || id == 0xFFFF_FFFF_FFFF_FFFF;
            var ofKind := match kind
              case Emojis => s.emoji
              case Masks => s.masks && !s.emoji
              case Stickers => !s.masks && !s.emoji;
            var archived := s.archived && (id in removed || id !in order);
            var installed := id in order || (s.installed && (s.archived || (id !in removed && !ofKind)));
            var date := if id in removed && !s.archived then 0 else s.installDate;
            && (id in after <==> !(recentGone && isRecent) && !(id in removed && !s.archived && !stays)
                                 && (installed || archived || stays))
            && (id in after ==>
                  after[id] == s.(installed := installed, archived := archived,
                                  installDate := if id in order && date == 0 then now else date))
  {
  }

  lemma NoNewSets(sets: map<SetId, StickersSet>, kind: StickersType, order: seq<SetId>, removed: seq<SetId>, now: int)
    ensures Saved(sets, kind, order, removed, now).Keys <= sets.Keys
  {
  }

  lemma {:induction false} KnownJoined(a: seq<SetId>, b: seq<SetId>, known: set<SetId>)
    ensures Known(a + b, known) == Known(a, known) + Known(b, known)
  {
    if b == [] {
      assert a + b == a;
    } else {
      var n := |b| - 1;
      assert (a + b)[..|a + b| - 1] == a + b[..n];
      KnownJoined(a, b[..n], known);
    }
  }

  // The id at any place of the local order is in the new order if its set is still known, between those before
  // it and those after it.
  lemma OrderIsKept(sets: map<SetId, StickersSet>, order: seq<SetId>, removed: seq<SetId>, k: nat)
    requires k < |order|
    ensures SavedOrder(sets, order, removed)
            == SavedOrder(sets, order[..k], removed)
               + (if order[k] in AfterRemovals(sets, removed) then [order[k]] else [])
               + SavedOrder(sets, order[k + 1..], removed)
  {
    hide AfterRemovals;
    var known := AfterRemovals(sets, removed).Keys;
    assert order == order[..k] + ([order[k]] + order[k + 1..]);
    KnownJoined(order[..k], [order[k]] + order[k + 1..], known);
    KnownJoined([order[k]], order[k + 1..], known);
    assert [order[k]][..0] == [];
    assert Known([order[k]], known) == if order[k] in known then [order[k]] else [];
  }

  // The same for the recent stickers.
  lemma {:induction false} RecentIsKept(recent: seq<Recent>, gone: set<Document>, k: nat)
    requires k < |recent|
    ensures WithoutDocuments(recent, gone)
            == WithoutDocuments(recent[..k], gone) + (if recent[k].document in gone then [] else [recent[k]])
               + WithoutDocuments(recent[k + 1..], gone)
    decreases |recent|
  {
    var n := |recent| - 1;
    if k < n {
      RecentIsKept(recent[..n], gone, k);
      assert recent[..n][..k] == recent[..k] && recent[..n][k + 1..] == recent[k + 1..][..n - k - 1];
      assert recent[k + 1..][|recent[k + 1..]| - 1] == recent[n];
    } else {
      assert recent[k + 1..] == [] && recent[..n] == recent[..k];
    }
  }

  // Without the recent sets removed the recent stickers lose those of the removed sets, archived or not; with them,
  // all.
  lemma RecentAfterSave(sets: map<SetId, StickersSet>, removed: seq<SetId>, recent: seq<Recent>, e: Recent)
    ensures e in SavedRecent(sets, removed, recent)
            <==> e in recent && CLOUD_RECENT !in removed && CLOUD_RECENT_ATTACHED !in removed
                 && forall id :: id in removed && id in sets ==> e.document !in sets[id].stickers
  {
    var gone := RemovedDocuments(sets, removed);
    RecentWithoutRemoved(recent, gone, e);
    if id :| id in removed && id in sets && e.document in sets[id].stickers {
      var k :| 0 <= k < |removed| && removed[k] == id;
      assert removed[k] in sets && e.document in sets[removed[k]].stickers;
    }
  }

  lemma {:induction false} RemovalCallsAre(sets: map<SetId, StickersSet>, removed: seq<SetId>, k: nat, c: Call)
    requires k <= |removed|
    ensures c in RemovalCalls(sets, removed, k) <==> exists j :: 0 <= j < k && c in CallAt(sets, removed, j)
  {
    if k > 0 {
      RemovalCallsAre(sets, removed, k - 1, c);
    }
  }

  lemma {:induction false} InstallCallsAre(
      sets: map<SetId, StickersSet>, order: seq<SetId>, removed: seq<SetId>, k: nat, id: SetId)
    requires k <= |order|
    ensures Install(id) in InstallCalls(sets, order, removed, k)
            <==> id in order[..k] && id in sets && sets[id].archived && id !in removed
    ensures Uninstall(id) !in InstallCalls(sets, order, removed, k)
  {
    if k > 0 {
      InstallCallsAre(sets, order, removed, k - 1, id);
      assert order[..k] == order[..k - 1] + [order[k - 1]];
    }
  }

  // The server is told of every set that is installed again from the archive, and of every set other than
  // the recent ones that is removed while not archived, and of no other.
  lemma ServerIsTold(sets: map<SetId, StickersSet>, order: seq<SetId>, removed: seq<SetId>, id: SetId)
    requires id != CUSTOM || !RecentRemoved(removed)
    ensures var calls := SaveCalls(sets, order, removed);
            && (Uninstall(id) in calls <==> id in removed && !IsCloud(id) && id in sets && !sets[id].archived)
            && (Install(id) in calls <==>
                  id in order && id !in removed && id in sets && sets[id].archived
                  && (IsCloud(id) ==> !RecentRemoved(removed)))
  {
    RemovalCallsAre(sets, removed, |removed|, Uninstall(id));
    RemovalCallsAre(sets, removed, |removed|, Install(id));
    InstallCallsAre(AfterRemovals(sets, removed), order, removed, |order|, id);
    assert order[..|order|] == order;
    if id in removed && !IsCloud(id) && id in sets && !sets[id].archived {
      var k := FirstOccurrence(removed, id);
      assert Uninstall(id) in CallAt(sets, removed, k);
    }
  }

  // Recent stickers are cleared on the server when they are removed, each kind of them.
  lemma RecentIsCleared(sets: map<SetId, StickersSet>, order: seq<SetId>, removed: seq<SetId>, attached: bool)
    ensures ClearRecent(attached) in SaveCalls(sets, order, removed)
            <==> (if attached then CLOUD_RECENT_ATTACHED else CLOUD_RECENT) in removed
  {
    RemovalCallsAre(sets, removed, |removed|, ClearRecent(attached));
    NoClearAmongInstalls(AfterRemovals(sets, removed), order, removed, |order|, attached);
    var id := if attached then CLOUD_RECENT_ATTACHED else CLOUD_RECENT;
    if id in removed {
      var k :| 0 <= k < |removed| && removed[k] == id;
      assert ClearRecent(attached) in CallAt(sets, removed, k);
    }
  }

  lemma {:induction false} NoClearAmongInstalls(
      sets: map<SetId, StickersSet>, order: seq<SetId>, removed: seq<SetId>, k: nat, attached: bool)
    requires k <= |order|
    ensures ClearRecent(attached) !in InstallCalls(sets, order, removed, k)
  {
    if k > 0 {
      NoClearAmongInstalls(sets, order, removed, k - 1, attached);
    }
  }

  // A set is installed once, however often it is in the order.
  lemma {:induction false} InstalledOnce(
      sets: map<SetId, StickersSet>, order: seq<SetId>, removed: seq<SetId>, k: nat, id: SetId)
    requires k <= |order|
    ensures multiset(InstallCalls(sets, order, removed, k))[Install(id)] <= if id in order[..k] then 1 else 0
  {
    if k > 0 {
      InstalledOnce(sets, order, removed, k - 1, id);
      assert order[..k] == order[..k - 1] + [order[k - 1]];
    }
  }

  // A set that goes is uninstalled once, and one that stays as often as it is in the list.
  lemma {:induction false} UninstallsCounted(sets: map<SetId, StickersSet>, removed: seq<SetId>, k: nat, id: SetId)
    requires k <= |removed| && id in sets && !sets[id].archived && !IsCloud(id)
    requires id != CUSTOM || !RecentRemoved(removed)
    ensures var s := sets[id];
            var n := multiset(removed[..k])[id];
            multiset(RemovalCalls(sets, removed, k))[Uninstall(id)]
            == if s.featured || s.special || s.emoji || s.locked > 0 || n == 0 then n else 1
  {
    if k > 0 {
      hide CallAt, RecentRemoved, IsCloud;
      UninstallsCounted(sets, removed, k - 1, id);
      CallAtCounted(sets, removed, k - 1, id);
      OneMoreCounted(removed, k - 1, id);
    }
  }

  lemma OneMoreCounted(removed: seq<SetId>, k: nat, id: SetId)
    requires k < |removed|
    ensures multiset(removed[..k + 1])[id] == multiset(removed[..k])[id] + if removed[k] == id then 1 else 0
    ensures multiset(removed[..k])[id] == 0 <==> id !in removed[..k]
  {
    assert removed[..k + 1] == removed[..k] + [removed[k]];
  }

  lemma CallAtCounted(sets: map<SetId, StickersSet>, removed: seq<SetId>, k: nat, id: SetId)
    requires k < |removed| && id in sets && !sets[id].archived && !IsCloud(id)
    requires id != CUSTOM || !RecentRemoved(removed)
    ensures var s := sets[id];
            multiset(CallAt(sets, removed, k))[Uninstall(id)]
            == if removed[k] == id && (s.featured || s.special || s.emoji || s.locked > 0 || id !in removed[..k]) then 1
               else 0
  {
    assert RecentRemoved(removed[..k]) ==> RecentRemoved(removed);
  }

  lemma FirstOccurrence(s: seq<SetId>, id: SetId) returns (k: nat)
    requires id in s
    ensures k < |s| && s[k] == id && id !in s[..k]
  {
    k := 0;
    while s[k] != id
      invariant k < |s| && id !in s[..k]
      decreases |s| - k
    {
      k := k + 1;
    }
  }

  // ---- The requests of all saves ----

  // A request under way; the answer to an install or uninstall request may send the order of its own save.
  datatype Request =
    | Disenable(kind: StickersType, order: seq<SetId>)
    | Cleanup
    | Reorder(kind: StickersType, order: seq<SetId>)

  // The two fields kept for a kind of sets; and the order of its last save and the reorder requests sent for it.
  datatype Barrier = Barrier(disenable: set<nat>, reorder: nat, latest: Option<seq<SetId>>, sends: nat)

  datatype State = State(barriers: map<StickersType, Barrier>, inFlight: map<nat, Request>, lastId: nat)

  datatype Event = Save(kind: StickersType, order: seq<SetId>, calls: seq<Call>) | Answer(id: nat)

  const INITIAL := State(map[], map[], 0)

  predicate Possible(s: State, e: Event) {
    e.Answer? ==> e.id in s.inFlight
  }

  function At(s: State, kind: StickersType): Barrier {
    if kind in s.barriers then s.barriers[kind] else Barrier({}, 0, None, 0)
  }

  function RequestOf(call: Call, kind: StickersType, order: seq<SetId>): Request {
    if call.ClearRecent? then Cleanup else Disenable(kind, order)
  }

  // The calls get the ids from lastId + 1 on.
  function Requested(calls: seq<Call>, lastId: nat, kind: StickersType, order: seq<SetId>): (r: map<nat, Request>)
    ensures forall id :: id in r <==> lastId < id <= lastId + |calls|
    ensures forall id :: id in r ==> r[id] == Cleanup || r[id] == Disenable(kind, order)
  {
    if calls == [] then map[]
    else Requested(calls[..|calls| - 1], lastId, kind, order)
         [lastId + |calls| := RequestOf(calls[|calls| - 1], kind, order)]
  }

  function Waited(requests: map<nat, Request>): set<nat> {
    set id | id in requests && requests[id].Disenable?
  }

  function Cancelled(s: State, kind: StickersType): State {
    var b := At(s, kind);
    s.(inFlight := s.inFlight - b.disenable - {b.reorder}, barriers := s.barriers[kind := b.(disenable := {}, reorder := 0)])
  }

  function CallsSent(s: State, kind: StickersType, order: seq<SetId>, calls: seq<Call>): State {
    var requests := Requested(calls, s.lastId, kind, order);
    State(s.barriers[kind := Barrier(Waited(requests), 0, Some(order), 0)], s.inFlight + requests, s.lastId + |calls|)
  }

  // stickersSaveOrder
  function OrderSent(s: State, kind: StickersType, order: seq<SetId>): State {
    if |order| < 2 then s
    else
      var id := s.lastId + 1;
      var b := At(s, kind);
      State(s.barriers[kind := b.(reorder := id, sends := b.sends + 1)], s.inFlight[id := Reorder(kind, order)], id)
  }

  function SentIfClear(s: State, kind: StickersType, order: seq<SetId>): State {
    if At(s, kind).disenable == {} then OrderSent(s, kind, order) else s
  }

  function Step(s: State, e: Event): State
    requires Possible(s, e)
  {
    match e
    case Save(kind, order, calls) => SentIfClear(CallsSent(Cancelled(s, kind), kind, order, calls), kind, order)
    case Answer(id) =>
      var t := s.(inFlight := s.inFlight - {id});
      match s.inFlight[id]
      case Cleanup => t
      case Disenable(kind, order) =>
        var b := At(s, kind);
        SentIfClear(t.(barriers := s.barriers[kind := b.(disenable := b.disenable - {id})]), kind, order)
      case Reorder(kind, _) => t.(barriers := s.barriers[kind := At(s, kind).(reorder := 0)])
  }

  predicate PossibleRun(s: State, es: seq<Event>)
    decreases |es|
  {
    es == [] || (Possible(s, es[0]) && PossibleRun(Step(s, es[0]), es[1..]))
  }

  function Run(s: State, es: seq<Event>): State
    requires PossibleRun(s, es)
    decreases |es|
  {
    if es == [] then s else Run(Step(s, es[0]), es[1..])
  }

  // Every request under way is the one its kind's fields hold, or clears recent stickers.
  predicate RequestInv(s: State, id: nat)
    requires id in s.inFlight
  {
    && 0 < id <= s.lastId
    && match s.inFlight[id]
       case Cleanup => true
       case Disenable(kind, order) => id in At(s, kind).disenable && At(s, kind).latest == Some(order)
       case Reorder(kind, order) => At(s, kind).reorder == id && At(s, kind).latest == Some(order)
  }

  predicate IsWaited(s: State, id: nat, kind: StickersType) {
    id in s.inFlight && s.inFlight[id].Disenable? && s.inFlight[id].kind == kind
  }

  predicate BarrierInv(s: State, kind: StickersType) {
    var b := At(s, kind);
    && (forall id :: id in b.disenable ==> IsWaited(s, id, kind))
    && (b.reorder != 0 ==> b.reorder in s.inFlight && s.inFlight[b.reorder].Reorder?
                           && s.inFlight[b.reorder].kind == kind && b.disenable == {} && b.sends == 1)
    && (b.disenable != {} ==> b.sends == 0)
    && (b.disenable == {} ==> b.sends == if b.latest.Some? && |b.latest.value| >= 2 then 1 else 0)
  }

  ghost predicate Inv(s: State) {
    && (forall id :: id in s.inFlight ==> RequestInv(s, id))
    && (forall kind :: BarrierInv(s, kind))
  }

  // The invariant, but for a reorder request of this kind that may be due.
  ghost predicate InvUnsent(s: State, kind: StickersType) {
    && (forall id :: id in s.inFlight ==> RequestInv(s, id))
    && (forall other :: other != kind ==> BarrierInv(s, other))
    && var b := At(s, kind);
    && (forall id :: id in b.disenable ==> IsWaited(s, id, kind))
    && b.reorder == 0 && b.sends == 0 && b.latest.Some?
  }

  lemma SentIfClearKeepsInv(s: State, kind: StickersType, order: seq<SetId>)
    requires InvUnsent(s, kind) && At(s, kind).latest == Some(order)
    ensures Inv(SentIfClear(s, kind, order))
  {
    var t := SentIfClear(s, kind, order);
    forall id | id in t.inFlight ensures RequestInv(t, id) {
      assert id in s.inFlight ==> RequestInv(s, id);
    }
    forall other ensures BarrierInv(t, other) {
      if other != kind {
        assert BarrierInv(s, other);
        forall id | id in At(t, other).disenable ensures IsWaited(t, id, other) {
          assert IsWaited(s, id, other) && RequestInv(s, id);
        }
        var r := At(t, other).reorder;
        assert r != 0 ==> RequestInv(s, r);
      }
    }
  }

  lemma CancelledKeepsInv(s: State, kind: StickersType)
    requires Inv(s)
    ensures var t := Cancelled(s, kind);
            && (forall id :: id in t.inFlight ==> RequestInv(t, id))
            && (forall other :: other != kind ==> BarrierInv(t, other))
            && (forall id :: id in t.inFlight ==> t.inFlight[id].Cleanup? || t.inFlight[id].kind != kind)
  {
    var t := Cancelled(s, kind);
    forall id | id in t.inFlight
      ensures RequestInv(t, id) && (t.inFlight[id].Cleanup? || t.inFlight[id].kind != kind)
    {
      assert RequestInv(s, id);
    }
    forall other | other != kind ensures BarrierInv(t, other) {
      assert BarrierInv(s, other) && BarrierInv(s, kind);
      forall id | id in At(t, other).disenable ensures IsWaited(t, id, other) {
        assert IsWaited(s, id, other);
      }
    }
  }

  lemma CallsSentKeepsInv(s: State, kind: StickersType, order: seq<SetId>, calls: seq<Call>)
    requires forall id :: id in s.inFlight ==> RequestInv(s, id)
    requires forall other :: other != kind ==> BarrierInv(s, other)
    requires forall id :: id in s.inFlight ==> s.inFlight[id].Cleanup? || s.inFlight[id].kind != kind
    ensures InvUnsent(CallsSent(s, kind, order, calls), kind)
  {
    var t := CallsSent(s, kind, order, calls);
    forall id | id in t.inFlight ensures RequestInv(t, id) {
      assert id in s.inFlight ==> RequestInv(s, id);
    }
    forall other | other != kind ensures BarrierInv(t, other) {
      assert BarrierInv(s, other);
      forall id | id in At(t, other).disenable ensures IsWaited(t, id, other) {
        assert IsWaited(s, id, other) && RequestInv(s, id);
      }
      var r := At(t, other).reorder;
      assert r != 0 ==> RequestInv(s, r);
    }
  }

  lemma AnswerKeepsInv(s: State, id: nat)
    requires Inv(s) && id in s.inFlight
    ensures Inv(Step(s, Answer(id)))
  {
    hide SentIfClear;
    assert RequestInv(s, id);
    var r := s.inFlight[id];
    var t := s.(inFlight := s.inFlight - {id});
    var u := match r
      case Cleanup => t
      case Disenable(kind, order) => t.(barriers := s.barriers[kind := At(s, kind).(disenable := At(s, kind).disenable - {id})])
      case Reorder(kind, _) => t.(barriers := s.barriers[kind := At(s, kind).(reorder := 0)]);
    forall other | other in u.inFlight ensures RequestInv(u, other) {
      assert RequestInv(s, other);
    }
    forall other | r.Cleanup? || other != r.kind ensures BarrierInv(u, other) {
      assert BarrierInv(s, other);
      forall i | i in At(u, other).disenable ensures IsWaited(u, i, other) {
        assert IsWaited(s, i, other);
      }
    }
    match r
    case Cleanup =>
    case Disenable(kind, order) =>
      assert BarrierInv(s, kind);
      forall i | i in At(u, kind).disenable ensures IsWaited(u, i, kind) {
        assert IsWaited(s, i, kind);
      }
      SentIfClearKeepsInv(u, kind, order);
    case Reorder(kind, _) =>
      assert BarrierInv(s, kind);
      assert BarrierInv(u, kind);
  }

  lemma StepKeepsInv(s: State, e: Event)
    requires Inv(s) && Possible(s, e)
    ensures Inv(Step(s, e))
  {
    hide Inv, SentIfClear, CallsSent, Cancelled, RequestInv, BarrierInv, InvUnsent;
    match e
    case Answer(id) => AnswerKeepsInv(s, id);
    case Save(kind, order, calls) =>
      CancelledKeepsInv(s, kind);
      CallsSentKeepsInv(Cancelled(s, kind), kind, order, calls);
      LatestOfSave(Cancelled(s, kind), kind, order, calls);
      SentIfClearKeepsInv(CallsSent(Cancelled(s, kind), kind, order, calls), kind, order);
  }

  lemma LatestOfSave(s: State, kind: StickersType, order: seq<SetId>, calls: seq<Call>)
    ensures At(CallsSent(s, kind, order, calls), kind).latest == Some(order)
  {
  }

  lemma {:induction false} RunKeepsInv(s: State, es: seq<Event>)
    requires Inv(s) && PossibleRun(s, es)
    ensures Inv(Run(s, es))
    decreases |es|
  {
    hide Inv, Step;
    if es != [] {
      StepKeepsInv(s, es[0]);
      RunKeepsInv(Step(s, es[0]), es[1..]);
    }
  }

  lemma {:induction false} RequestedAt(calls: seq<Call>, lastId: nat, kind: StickersType, order: seq<SetId>, j: nat)
    requires j < |calls|
    ensures lastId + 1 + j in Requested(calls, lastId, kind, order)
    ensures Requested(calls, lastId, kind, order)[lastId + 1 + j]
            == if calls[j].ClearRecent? then Cleanup else Disenable(kind, order)
  {
    if j < |calls| - 1 {
      RequestedAt(calls[..|calls| - 1], lastId, kind, order, j);
    }
  }

  // A save cancels what its kind waits for and its reorder request, and sends its own requests, each with the
  // order of this save; the order itself is sent at once if none of them is waited for.
  lemma SaveSends(s: State, kind: StickersType, order: seq<SetId>, calls: seq<Call>, j: nat)
    requires Inv(s) && j < |calls|
    ensures var t := Step(s, Save(kind, order, calls));
            && s.lastId + 1 + j in t.inFlight
            && t.inFlight[s.lastId + 1 + j] == (if calls[j].ClearRecent? then Cleanup else Disenable(kind, order))
            && (s.lastId + 1 + j in At(t, kind).disenable <==> !calls[j].ClearRecent?)
  {
    hide Inv;
    RequestedAt(calls, s.lastId, kind, order, j);
    AllIdsAreOld(s);
  }

  lemma AllIdsAreOld(s: State)
    requires Inv(s)
    ensures forall id :: id in s.inFlight ==> 0 < id <= s.lastId
    ensures forall kind, id :: id in At(s, kind).disenable ==> id in s.inFlight
  {
    forall id | id in s.inFlight ensures 0 < id <= s.lastId {
      assert RequestInv(s, id);
    }
    forall kind, id | id in At(s, kind).disenable ensures id in s.inFlight {
      assert BarrierInv(s, kind);
      assert IsWaited(s, id, kind);
    }
  }

  lemma CancelledRequests(s: State, kind: StickersType, id: nat)
    requires id in s.inFlight
    ensures id in Cancelled(s, kind).inFlight <==> id !in At(s, kind).disenable && id != At(s, kind).reorder
    ensures id in Cancelled(s, kind).inFlight ==> Cancelled(s, kind).inFlight[id] == s.inFlight[id]
  {
  }

  lemma SaveCancels(s: State, kind: StickersType, order: seq<SetId>, calls: seq<Call>, id: nat)
    requires Inv(s) && id in s.inFlight
    ensures var t := Step(s, Save(kind, order, calls));
            if s.inFlight[id].Cleanup? || s.inFlight[id].kind != kind then
              id in t.inFlight && t.inFlight[id] == s.inFlight[id]
            else id !in t.inFlight
  {
    CancelledKeepsInv(s, kind);
    AllIdsAreOld(s);
    assert RequestInv(s, id) && BarrierInv(s, kind);
    assert id in At(s, kind).disenable ==> IsWaited(s, id, kind);
    hide Inv, RequestInv;
    CancelledRequests(s, kind, id);
    var c := Cancelled(s, kind);
    assert c.lastId == s.lastId && (id in CallsSent(c, kind, order, calls).inFlight <==> id in c.inFlight);
  }

  lemma SaveSendsOrder(s: State, kind: StickersType, order: seq<SetId>, calls: seq<Call>)
    ensures var t := Step(s, Save(kind, order, calls));
            if (forall c :: c in calls ==> c.ClearRecent?) && |order| >= 2 then
              t.lastId == s.lastId + |calls| + 1 && t.lastId in t.inFlight && t.inFlight[t.lastId] == Reorder(kind, order)
            else t.lastId == s.lastId + |calls|
  {
    if c :| c in calls && !c.ClearRecent? {
      var j :| 0 <= j < |calls| && calls[j] == c;
      RequestedAt(calls, s.lastId, kind, order, j);
      assert s.lastId + 1 + j in Waited(Requested(calls, s.lastId, kind, order));
    } else {
      forall id | id in Requested(calls, s.lastId, kind, order)
        ensures Requested(calls, s.lastId, kind, order)[id] == Cleanup
      {
        RequestedAt(calls, s.lastId, kind, order, id - s.lastId - 1);
      }
      assert Waited(Requested(calls, s.lastId, kind, order)) == {};
    }
  }

  // The answer to the last request waited for sends the order of its save.
  lemma LastAnswerSendsOrder(s: State, id: nat)
    requires id in s.inFlight && s.inFlight[id].Disenable?
    ensures var t := Step(s, Answer(id));
            var request := s.inFlight[id];
            t.inFlight == if At(s, request.kind).disenable - {id} == {} && |request.order| >= 2 then
                            (s.inFlight - {id})[s.lastId + 1 := Reorder(request.kind, request.order)]
                          else s.inFlight - {id}
  {
  }

  // The order of the last save of a kind in a run.
  function LatestOrder(es: seq<Event>, kind: StickersType): Option<seq<SetId>> {
    if es == [] then None
    else
      var e := es[|es| - 1];
      if e.Save? && e.kind == kind then Some(e.order) else LatestOrder(es[..|es| - 1], kind)
  }

  lemma {:induction false} LatestIsLatest(s: State, es: seq<Event>, kind: StickersType)
    requires Inv(s) && PossibleRun(s, es)
    ensures At(Run(s, es), kind).latest == (if LatestOrder(es, kind).Some? then LatestOrder(es, kind) else At(s, kind).latest)
    decreases |es|
  {
    hide Inv, Step;
    if es != [] {
      StepKeepsInv(s, es[0]);
      LatestIsLatest(Step(s, es[0]), es[1..], kind);
      LatestOfStep(s, es[0], kind);
      LatestOfRest(es, kind);
    }
  }

  lemma LatestOfStep(s: State, e: Event, kind: StickersType)
    requires Possible(s, e)
    ensures At(Step(s, e), kind).latest == if e.Save? && e.kind == kind then Some(e.order) else At(s, kind).latest
  {
  }

  lemma {:induction false} LatestOfRest(es: seq<Event>, kind: StickersType)
    requires es != []
    ensures LatestOrder(es, kind)
            == if LatestOrder(es[1..], kind).Some? then LatestOrder(es[1..], kind) else LatestOrder(es[..1], kind)
  {
    if |es| > 1 {
      assert es[1..][..|es| - 2] == es[..|es| - 1][1..];
      assert es[..|es| - 1][..1] == es[..1];
      LatestOfRest(es[..|es| - 1], kind);
    }
  }

  // In every run, a reorder request of a kind is under way only while none of its install and uninstall
  // requests is; it is the only one, and it carries the order of the kind's last save. For each save one
  // is sent once nothing is waited for, if the order has two sets or more, and never two.
  lemma ReorderWaitsForTheOthers(es: seq<Event>, kind: StickersType)
    requires PossibleRun(INITIAL, es)
    ensures var s := Run(INITIAL, es);
            var latest := LatestOrder(es, kind);
            && (forall id :: id in s.inFlight && s.inFlight[id].Reorder? && s.inFlight[id].kind == kind ==>
                  latest == Some(s.inFlight[id].order) && id == At(s, kind).reorder
                  && forall other :: !IsWaited(s, other, kind))
            && At(s, kind).sends
               == if latest.Some? && |latest.value| >= 2 && (forall other :: !IsWaited(s, other, kind)) then 1 else 0
  {
    hide Run, PossibleRun;
    var s := Run(INITIAL, es);
    RunKeepsInv(INITIAL, es);
    LatestIsLatest(INITIAL, es, kind);
    assert BarrierInv(s, kind);
    forall other | IsWaited(s, other, kind) ensures other in At(s, kind).disenable {
      assert RequestInv(s, other);
    }
    if At(s, kind).disenable != {} {
      var other :| other in At(s, kind).disenable;
      assert IsWaited(s, other, kind);
    }
    forall id | id in s.inFlight && s.inFlight[id].Reorder? && s.inFlight[id].kind == kind
      ensures LatestOrder(es, kind) == Some(s.inFlight[id].order) && id == At(s, kind).reorder
    {
      assert RequestInv(s, id);
    }
  }

  // ---- One step of each pass ----

  function OneRemoved(sets: map<SetId, StickersSet>, id: SetId): map<SetId, StickersSet> {
    if IsCloud(id) then sets - {CLOUD_RECENT, CLOUD_RECENT_ATTACHED, CUSTOM}
    else if id !in sets || sets[id].archived then sets
    else if StaysUninstalled(sets[id]) then sets[id := sets[id].(installed := false, installDate := 0)]
    else sets - {id}
  }

  function CallFor(sets: map<SetId, StickersSet>, id: SetId): seq<Call> {
    if IsCloud(id) then [ClearRecent(id == CLOUD_RECENT_ATTACHED)]
    else if id in sets && !sets[id].archived then [Uninstall(id)]
    else []
  }

  lemma RemovalStep(sets: map<SetId, StickersSet>, removed: seq<SetId>, k: nat)
    requires k < |removed|
    ensures AfterRemovals(sets, removed[..k + 1]) == OneRemoved(AfterRemovals(sets, removed[..k]), removed[k])
    ensures CallAt(sets, removed, k) == CallFor(AfterRemovals(sets, removed[..k]), removed[k])
  {
    assert removed[..k + 1] == removed[..k] + [removed[k]];
    var before, after := removed[..k], removed[..k + 1];
    forall id | id in sets
      ensures Dropped(id, sets[id], after) <==>
              Dropped(id, sets[id], before) || (IsCloud(removed[k]) && (IsCloud(id) || id == CUSTOM))
              || (id == removed[k] && !sets[id].archived && !StaysUninstalled(sets[id]))
    {
    }
  }

  lemma WithoutOneMore(recent: seq<Recent>, last: Recent, gone: set<Document>)
    ensures WithoutDocuments(recent + [last], gone)
            == WithoutDocuments(recent, gone) + if last.document in gone then [] else [last]
  {
    assert (recent + [last])[..|recent|] == recent;
  }

  lemma {:induction false} WithoutTwice(recent: seq<Recent>, a: set<Document>, b: set<Document>)
    ensures WithoutDocuments(WithoutDocuments(recent, a), b) == WithoutDocuments(recent, a + b)
  {
    if recent != [] {
      var rest, last := recent[..|recent| - 1], recent[|recent| - 1];
      WithoutTwice(rest, a, b);
      if last.document !in a {
        WithoutOneMore(WithoutDocuments(rest, a), last, b);
      } else {
        assert WithoutDocuments(recent, a) == WithoutDocuments(rest, a);
      }
    }
  }

  lemma {:induction false} WithoutNothing(recent: seq<Recent>)
    ensures WithoutDocuments(recent, {}) == recent
  {
    if recent != [] {
      WithoutNothing(recent[..|recent| - 1]);
    }
  }

  // The recent stickers that stay are those that no removed set holds.
  lemma {:induction false} RecentWithoutRemoved(recent: seq<Recent>, gone: set<Document>, e: Recent)
    ensures e in WithoutDocuments(recent, gone) <==> e in recent && e.document !in gone
  {
    if recent != [] {
      RecentWithoutRemoved(recent[..|recent| - 1], gone, e);
    }
  }

  // The recent stickers after one more removed id, which may be known at that time or not.
  lemma RecentStep(sets: map<SetId, StickersSet>, removed: seq<SetId>, k: nat, recent: seq<Recent>)
    requires k < |removed|
    ensures var id := removed[k];
            var before := AfterRemovals(sets, removed[..k]);
            var was := SavedRecent(sets, removed[..k], recent);
            SavedRecent(sets, removed[..k + 1], recent)
            == if IsCloud(id) then [] else if id in before then WithoutDocuments(was, DocumentsOf(before[id])) else was
  {
    var id := removed[k];
    assert removed[..k + 1] == removed[..k] + [id];
    var before := AfterRemovals(sets, removed[..k]);
    var gone := RemovedDocuments(sets, removed[..k]);
    if IsCloud(id) || RecentRemoved(removed[..k]) {
      assert RecentRemoved(removed[..k + 1]);
    } else if id in before {
      RemovedDocumentsStep(sets, removed, k);
      WithoutTwice(recent, gone, DocumentsOf(before[id]));
    } else {
      assert id in sets ==> id in removed[..k];
      RemovedDocumentsStep(sets, removed, k);
      assert id in sets ==> DocumentsOf(sets[id]) <= gone;
      assert RemovedDocuments(sets, removed[..k + 1]) == gone;
    }
  }

  function DocumentsOf(s: StickersSet): set<Document> {
    set d | d in s.stickers
  }

  lemma RemovedDocumentsStep(sets: map<SetId, StickersSet>, removed: seq<SetId>, k: nat)
    requires k < |removed|
    ensures RemovedDocuments(sets, removed[..k + 1])
            == RemovedDocuments(sets, removed[..k]) + if removed[k] in sets then DocumentsOf(sets[removed[k]]) else {}
  {
    var was, now := RemovedDocuments(sets, removed[..k]), RemovedDocuments(sets, removed[..k + 1]);
    var id := removed[k];
    forall d | d in was ensures d in now {
      var j :| 0 <= j < k && removed[..k][j] in sets && d in sets[removed[..k][j]].stickers;
      assert removed[..k + 1][j] == removed[..k][j];
    }
    forall d | id in sets && d in sets[id].stickers ensures d in now {
      assert removed[..k + 1][k] == id;
    }
    forall d | d in now ensures d in was || (id in sets && d in sets[id].stickers) {
      var j :| 0 <= j < k + 1 && removed[..k + 1][j] in sets && d in sets[removed[..k + 1][j]].stickers;
      assert j < k ==> removed[..k][j] == removed[..k + 1][j];
    }
  }

  function OnePlaced(sets: map<SetId, StickersSet>, id: SetId, removed: seq<SetId>, now: int): map<SetId, StickersSet> {
    if id !in sets then sets
    else
      var s := sets[id];
      sets[id := s.(archived := s.archived && id in removed, installed := true,
                    installDate := if s.installDate == 0 then now else s.installDate)]
  }

  lemma PlacingStep(sets: map<SetId, StickersSet>, order: seq<SetId>, removed: seq<SetId>, now: int, k: nat)
    requires k < |order|
    ensures AfterPlacing(sets, order[..k + 1], removed, now)
            == OnePlaced(AfterPlacing(sets, order[..k], removed, now), order[k], removed, now)
    ensures order[k] in sets ==>
              (AfterPlacing(sets, order[..k], removed, now)[order[k]].archived
               <==> sets[order[k]].archived && (order[k] !in order[..k] || order[k] in removed))
  {
    assert order[..k + 1] == order[..k] + [order[k]];
  }

  lemma {:induction false} ClearKeepsInstallCalls(
      sets: map<SetId, StickersSet>, kind: StickersType, order: seq<SetId>, removed: seq<SetId>, k: nat)
    requires k <= |order|
    ensures InstallCalls(AfterClear(sets, kind), order, removed, k) == InstallCalls(sets, order, removed, k)
  {
    if k > 0 {
      ClearKeepsInstallCalls(sets, kind, order, removed, k - 1);
    }
  }

  lemma RequestedOneMore(calls: seq<Call>, call: Call, lastId: nat, kind: StickersType, order: seq<SetId>)
    ensures var was, now := Requested(calls, lastId, kind, order), Requested(calls + [call], lastId, kind, order);
            var id := lastId + |calls| + 1;
            && now == was[id := RequestOf(call, kind, order)]
            && Waited(now) == Waited(was) + if call.ClearRecent? then {} else {id}
  {
    assert (calls + [call])[..|calls|] == calls;
    var was, now := Requested(calls, lastId, kind, order), Requested(calls + [call], lastId, kind, order);
    var id := lastId + |calls| + 1;
    assert now == was[id := RequestOf(call, kind, order)];
    assert id !in was;
  }

  // Sending one more request of a save.
  lemma CallSent(s: State, kind: StickersType, order: seq<SetId>, calls: seq<Call>, call: Call)
    ensures var t := CallsSent(s, kind, order, calls);
            var id := t.lastId + 1;
            var b := At(t, kind);
            CallsSent(s, kind, order, calls + [call])
            == State(t.barriers[kind := b.(disenable := b.disenable + if call.ClearRecent? then {} else {id})],
                     t.inFlight[id := RequestOf(call, kind, order)], id)
  {
    hide Requested, Waited, RequestOf;
    RequestedOneMore(calls, call, s.lastId, kind, order);
  }

  lemma ClearKeepsKeys(sets: map<SetId, StickersSet>, kind: StickersType)
    ensures AfterClear(sets, kind).Keys == sets.Keys
  {
  }

  lemma NothingSent(s: State, kind: StickersType, order: seq<SetId>)
    ensures CallsSent(s, kind, order, [])
            == s.(barriers := s.barriers[kind := Barrier({}, 0, Some(order), 0)])
  {
    assert Waited(map[]) == {};
    assert s.inFlight + map[] == s.inFlight;
  }

  lemma NothingRemoved(sets: map<SetId, StickersSet>, recent: seq<Recent>)
    ensures AfterRemovals(sets, []) == sets && SavedRecent(sets, [], recent) == recent
  {
    assert RemovedDocuments(sets, []) == {};
    WithoutNothing(recent);
  }

  lemma NothingPlaced(sets: map<SetId, StickersSet>, removed: seq<SetId>, now: int)
    ensures AfterPlacing(sets, [], removed, now) == sets
  {
  }

  lemma KnownStep(order: seq<SetId>, known: set<SetId>, k: nat)
    requires k < |order|
    ensures Known(order[..k + 1], known) == Known(order[..k], known) + if order[k] in known then [order[k]] else []
  {
    assert order[..k + 1][..k] == order[..k];
  }

  function CallToInstall(sets: map<SetId, StickersSet>, id: SetId, removed: seq<SetId>): seq<Call> {
    if id in sets && sets[id].archived && id !in removed then [Install(id)] else []
  }

  // The call made for the k-th id of the order, seen from the sets placed so far.
  lemma InstallStep(
      calls: seq<Call>, sets: map<SetId, StickersSet>, order: seq<SetId>, removed: seq<SetId>, now: int, k: nat)
    requires k < |order|
    ensures calls + InstallCalls(sets, order, removed, k + 1)
            == calls + InstallCalls(sets, order, removed, k)
               + CallToInstall(AfterPlacing(sets, order[..k], removed, now), order[k], removed)
  {
    PlacingStep(sets, order, removed, now, k);
  }

  // The loop over the order, after k ids.
  ghost predicate PlacedSoFar(
      was: map<SetId, StickersSet>, sets: map<SetId, StickersSet>, s: State, t: State, order: seq<SetId>,
      calls: seq<Call>, kind: StickersType, removed: seq<SetId>, now: int, k: nat, placed: seq<SetId>)
  {
    && k <= |order|
    && sets.Keys == was.Keys
    && sets == AfterPlacing(was, order[..k], removed, now)
    && placed == Known(order[..k], was.Keys)
    && t == CallsSent(s, kind, order, calls + InstallCalls(was, order, removed, k))
  }

  ghost function SentSoFar(
      was: map<SetId, StickersSet>, sets: map<SetId, StickersSet>, s: State, t: State, order: seq<SetId>,
      calls: seq<Call>, kind: StickersType, removed: seq<SetId>, now: int, k: nat, placed: seq<SetId>): (sent: seq<Call>)
    requires PlacedSoFar(was, sets, s, t, order, calls, kind, removed, now, k, placed) && k <= |order|
    ensures sent == calls + InstallCalls(was, order, removed, k) && t == CallsSent(s, kind, order, sent)
  {
    calls + InstallCalls(was, order, removed, k)
  }

  lemma PlacedNone(
      was: map<SetId, StickersSet>, s: State, t: State, order: seq<SetId>, calls: seq<Call>, kind: StickersType,
      removed: seq<SetId>, now: int)
    requires t == CallsSent(s, kind, order, calls)
    ensures PlacedSoFar(was, was, s, t, order, calls, kind, removed, now, 0, [])
  {
    NothingPlaced(was, removed, now);
    assert order[..0] == [] && calls + [] == calls;
  }

  lemma PlacedOneMore(
      was: map<SetId, StickersSet>, sets: map<SetId, StickersSet>, after: map<SetId, StickersSet>,
      s: State, t: State, u: State, order: seq<SetId>, calls: seq<Call>, kind: StickersType, removed: seq<SetId>,
      now: int, k: nat, placed: seq<SetId>)
    requires k < |order| && PlacedSoFar(was, sets, s, t, order, calls, kind, removed, now, k, placed)
    requires after == OnePlaced(sets, order[k], removed, now) && after.Keys == sets.Keys
    requires u == CallsSent(s, kind, order, calls + InstallCalls(was, order, removed, k) + CallToInstall(sets, order[k], removed))
    ensures PlacedSoFar(was, after, s, u, order, calls, kind, removed, now, k + 1,
                        placed + if order[k] in sets then [order[k]] else [])
  {
    hide CallsSent, OnePlaced, AfterPlacing, CallToInstall, InstallCalls, Known;
    PlacingStep(was, order, removed, now, k);
    KnownStep(order, was.Keys, k);
    InstallStep(calls, was, order, removed, now, k);
  }

  function OrderAt(orders: map<StickersType, seq<SetId>>, kind: StickersType): seq<SetId> {
    if kind in orders then orders[kind] else []
  }

  // The order without the first place of a set.
  function Without(order: seq<SetId>, id: SetId): seq<SetId> {
    if order == [] then [] else if order[0] == id then order[1..] else [order[0]] + Without(order[1..], id)
  }

  lemma SweptAre(sets: map<SetId, StickersSet>)
    ensures forall id :: id in AfterSweep(sets) <==>
              id in sets && var s := sets[id]; s.featured || s.installed || s.archived || s.special || s.emoji || s.locked > 0
  {
  }

  // ---- The object ----

  class ApiWrap {
    var sets: map<SetId, StickersSet>
    var recent: seq<Recent>
    var orders: map<StickersType, seq<SetId>>
    var barriers: map<StickersType, Barrier>
    var inFlight: map<nat, Request>
    var lastId: nat

    function Requests(): State
      reads this
    {
      State(barriers, inFlight, lastId)
    }

    constructor (sets: map<SetId, StickersSet>, recent: seq<Recent>, orders: map<StickersType, seq<SetId>>)
      ensures Requests() == INITIAL && Inv(Requests())
      ensures this.sets == sets && this.recent == recent && this.orders == orders
    {
      this.sets, this.recent, this.orders := sets, recent, orders;
      barriers, inFlight, lastId := map[], map[], 0;
    }

    method CancelRequests(kind: StickersType)
      modifies this`barriers, this`inFlight
      ensures Requests() == Cancelled(old(Requests()), kind)
    {
      var b := At(Requests(), kind);
      inFlight := inFlight - b.disenable;
      inFlight := inFlight - {b.reorder};
      barriers := barriers[kind := b.(disenable := {}, reorder := 0)];
    }

    method SendCall(kind: StickersType, order: seq<SetId>, call: Call, ghost s: State, ghost calls: seq<Call>)
      requires Requests() == CallsSent(s, kind, order, calls)
      modifies this`barriers, this`inFlight, this`lastId
      ensures Requests() == CallsSent(s, kind, order, calls + [call])
    {
      hide CallsSent;
      CallSent(s, kind, order, calls, call);
      lastId := lastId + 1;
      inFlight := inFlight[lastId := RequestOf(call, kind, order)];
      var b := At(Requests(), kind);
      barriers := barriers[kind := b.(disenable := b.disenable + if call.ClearRecent? then {} else {lastId})];
    }

    method StickersSaveOrder(kind: StickersType, localOrder: seq<SetId>)
      modifies this`barriers, this`inFlight, this`lastId
      ensures Requests() == OrderSent(old(Requests()), kind, localOrder)
    {
      if |localOrder| < 2 {
        return;
      }
      lastId := lastId + 1;
      inFlight := inFlight[lastId := Reorder(kind, localOrder)];
      var b := At(Requests(), kind);
      barriers := barriers[kind := b.(reorder := lastId, sends := b.sends + 1)];
    }

    // The answer, good or bad, to request id.
    method Answered(id: nat)
      requires Inv(Requests()) && id in inFlight
      modifies this`barriers, this`inFlight, this`lastId
      ensures Requests() == Step(old(Requests()), Answer(id)) && Inv(Requests())
    {
      hide Inv, OrderSent;
      StepKeepsInv(Requests(), Answer(id));
      var request := inFlight[id];
      inFlight := inFlight - {id};
      match request
      case Cleanup =>
      case Reorder(kind, _) =>
        barriers := barriers[kind := At(Requests(), kind).(reorder := 0)];
      case Disenable(kind, order) =>
        var b := At(Requests(), kind);
        barriers := barriers[kind := b.(disenable := b.disenable - {id})];
        if barriers[kind].disenable == {} {
          StickersSaveOrder(kind, order);
        }
    }

    // Erases from the recent stickers those of a set.
    method EraseRecent(stickers: seq<Document>)
      modifies this`recent
      ensures recent == WithoutDocuments(old(recent), set d | d in stickers)
    {
      ghost var was := recent;
      ghost var gone := set d | d in stickers;
      ghost var p := 0;
      var i := 0;
      while i < |recent|
        invariant p <= |was| && i <= |recent|
        invariant recent[..i] == WithoutDocuments(was[..p], gone) && recent[i..] == was[p..]
        decreases |recent| - i
      {
        WithoutOneMore(was[..p], was[p], gone);
        assert was[..p + 1] == was[..p] + [was[p]];
        assert recent[i..][0] == recent[i] == was[p] && recent[i..][1..] == recent[i + 1..] == was[p + 1..];
        if recent[i].document in stickers {
          recent := recent[..i] + recent[i + 1..];
        } else {
          i := i + 1;
        }
        p := p + 1;
      }
      assert was[..p] == was;
    }

    // Removes one set, or all the recent ones.
    method RemoveSet(id: SetId, kind: StickersType, order: seq<SetId>, ghost s: State, ghost calls: seq<Call>)
      requires Requests() == CallsSent(s, kind, order, calls)
      modifies this
      ensures sets == OneRemoved(old(sets), id)
      ensures recent == if IsCloud(id) then []
                        else if id in old(sets) then WithoutDocuments(old(recent), DocumentsOf(old(sets)[id]))
                        else old(recent)
      ensures Requests() == CallsSent(s, kind, order, calls + CallFor(old(sets), id))
      ensures forall other :: other != kind ==> OrderAt(orders, other) == OrderAt(old(orders), other)
    {
      hide CallsSent, WithoutDocuments;
      if IsCloud(id) {
        sets := sets - {CLOUD_RECENT};
        sets := sets - {CLOUD_RECENT_ATTACHED};
        sets := sets - {CUSTOM};
        recent := [];
        SendCall(kind, order, ClearRecent(id == CLOUD_RECENT_ATTACHED), s, calls);
        return;
      }
      assert calls + [] == calls;
      if id in sets {
        var found := sets[id];
        EraseRecent(found.stickers);
        if !found.archived {
          SendCall(kind, order, Uninstall(id), s, calls);
          orders := orders[kind := Without(OrderAt(orders, kind), id)];
          if StaysUninstalled(found) {
            sets := sets[id := found.(installed := false, installDate := 0)];
          } else {
            sets := sets - {id};
          }
        }
      }
    }

    // The loop over the removed sets.
    method RemoveSets(localRemoved: seq<SetId>, kind: StickersType, order: seq<SetId>, ghost s: State)
      requires Requests() == CallsSent(s, kind, order, [])
      modifies this
      ensures sets == AfterRemovals(old(sets), localRemoved)
      ensures recent == SavedRecent(old(sets), localRemoved, old(recent))
      ensures Requests() == CallsSent(s, kind, order, RemovalCalls(old(sets), localRemoved, |localRemoved|))
      ensures forall other :: other != kind ==> OrderAt(orders, other) == OrderAt(old(orders), other)
    {
      hide CallsSent, AfterRemovals, SavedRecent, CallAt, OneRemoved, CallFor, WithoutDocuments;
      ghost var was, recentWas := sets, recent;
      NothingRemoved(was, recentWas);
      var k := 0;
      assert localRemoved[..0] == [];
      while k < |localRemoved|
        invariant k <= |localRemoved|
        invariant sets == AfterRemovals(was, localRemoved[..k])
        invariant recent == SavedRecent(was, localRemoved[..k], recentWas)
        invariant Requests() == CallsSent(s, kind, order, RemovalCalls(was, localRemoved, k))
        invariant forall other :: other != kind ==> OrderAt(orders, other) == OrderAt(old(orders), other)
      {
        RemovalStep(was, localRemoved, k);
        RecentStep(was, localRemoved, k, recentWas);
        RemoveSet(localRemoved[k], kind, order, s, RemovalCalls(was, localRemoved, k));
        k := k + 1;
      }
      assert localRemoved[..k] == localRemoved;
    }

    // All installed flags of the kind are cleared; the order sets them again.
    method ClearInstalled(kind: StickersType)
      modifies this`sets
      ensures sets == AfterClear(old(sets), kind)
    {
      hide Cleared;
      ghost var was := sets;
      var todo := sets.Keys;
      while todo != {}
        invariant todo <= was.Keys
        invariant sets == map id | id in was :: if id in todo then was[id] else Cleared(was[id], kind)
        decreases |todo|
      {
        var id :| id in todo;
        sets := sets[id := Cleared(sets[id], kind)];
        todo := todo - {id};
      }
    }

    // The loop over the new order.
    method PlaceOrder(localOrder: seq<SetId>, localRemoved: seq<SetId>, kind: StickersType, now: int,
                      ghost s: State, ghost calls: seq<Call>)
      requires Requests() == CallsSent(s, kind, localOrder, calls)
      modifies this
      ensures recent == old(recent)
      ensures sets == AfterPlacing(old(sets), localOrder, localRemoved, now)
      ensures orders == old(orders)[kind := Known(localOrder, old(sets).Keys)]
      ensures Requests()
              == CallsSent(s, kind, localOrder, calls + InstallCalls(old(sets), localOrder, localRemoved, |localOrder|))
    {
      ghost var was, ordersWas := sets, orders;
      orders := orders[kind := []];
      PlacedNone(was, s, Requests(), localOrder, calls, kind, localRemoved, now);
      PlaceFrom(localOrder, localRemoved, kind, now, s, calls, was);
      assert localOrder[..|localOrder|] == localOrder;
    }

    method PlaceFrom(localOrder: seq<SetId>, localRemoved: seq<SetId>, kind: StickersType, now: int,
                     ghost s: State, ghost calls: seq<Call>, ghost was: map<SetId, StickersSet>)
      requires kind in orders
      requires PlacedSoFar(was, sets, s, Requests(), localOrder, calls, kind, localRemoved, now, 0, orders[kind])
      modifies this
      ensures recent == old(recent) && kind in orders && orders == old(orders)[kind := orders[kind]]
      ensures PlacedSoFar(was, sets, s, Requests(), localOrder, calls, kind, localRemoved, now, |localOrder|, orders[kind])
    {
      hide CallsSent, PlacedSoFar, OnePlaced, CallToInstall;
      var k := 0;
      while k < |localOrder|
        invariant k <= |localOrder| && kind in orders && orders == old(orders)[kind := orders[kind]]
        invariant recent == old(recent)
        invariant PlacedSoFar(was, sets, s, Requests(), localOrder, calls, kind, localRemoved, now, k, orders[kind])
      {
        ghost var before, t, placed := sets, Requests(), orders[kind];
        ghost var sent := SentSoFar(was, sets, s, t, localOrder, calls, kind, localRemoved, now, k, placed);
        PlaceSet(localOrder[k], localRemoved, kind, now, localOrder, s, sent);
        PlacedOneMore(was, before, sets, s, t, Requests(), localOrder, calls, kind, localRemoved, now, k, placed);
        k := k + 1;
      }
    }

    method PlaceSet(id: SetId, localRemoved: seq<SetId>, kind: StickersType, now: int, order: seq<SetId>,
                    ghost s: State, ghost calls: seq<Call>)
      requires kind in orders && Requests() == CallsSent(s, kind, order, calls)
      modifies this
      ensures recent == old(recent)
      ensures sets == OnePlaced(old(sets), id, localRemoved, now) && sets.Keys == old(sets).Keys
      ensures orders == old(orders)[kind := old(orders)[kind] + if id in old(sets) then [id] else []]
      ensures Requests() == CallsSent(s, kind, order, calls + CallToInstall(old(sets), id, localRemoved))
    {
      hide CallsSent;
      assert calls + [] == calls;
      if id !in sets {
        assert orders[kind] + [] == orders[kind];
        return;
      }
      var found := sets[id];
      if found.archived && id !in localRemoved {
        SendCall(kind, order, Install(id), s, calls);
        found := found.(archived := false);
      }
      orders := orders[kind := orders[kind] + [id]];
      found := found.(installed := true);
      if found.installDate == 0 {
        found := found.(installDate := now);
      }
      sets := sets[id := found];
    }

    // Sets without a reason to stay are erased.
    method SweepSets()
      modifies this`sets
      ensures sets == AfterSweep(old(sets))
      ensures forall id :: id in sets <==> id in old(sets) && var s := old(sets)[id];
                                           s.featured || s.installed || s.archived || s.special || s.emoji || s.locked > 0
    {
      hide Survives;
      ghost var was := sets;
      SweptAre(was);
      var todo := sets.Keys;
      while todo != {}
        invariant todo <= was.Keys
        invariant sets == map id | id in was && (id in todo || Survives(was[id])) :: was[id]
        decreases |todo|
      {
        var id :| id in todo;
        if !Survives(sets[id]) {
          sets := sets - {id};
        }
        todo := todo - {id};
      }
    }

    // The four passes over the sets.
    method ChangeSets(localOrder: seq<SetId>, localRemoved: seq<SetId>, kind: StickersType, now: int, ghost s: State)
      requires Requests() == CallsSent(s, kind, localOrder, [])
      modifies this
      ensures sets == Saved(old(sets), kind, localOrder, localRemoved, now)
      ensures recent == SavedRecent(old(sets), localRemoved, old(recent))
      ensures OrderAt(orders, kind) == SavedOrder(old(sets), localOrder, localRemoved)
      ensures forall other :: other != kind ==> OrderAt(orders, other) == OrderAt(old(orders), other)
      ensures Requests() == CallsSent(s, kind, localOrder, SaveCalls(old(sets), localOrder, localRemoved))
    {
      hide AfterRemovals, AfterClear, AfterPlacing, AfterSweep, Saved, SavedRecent, InstallCalls, RemovalCalls, Known, CallsSent;
      ghost var was := sets;
      ghost var rest := AfterRemovals(was, localRemoved);
      SavedInFourPasses(was, kind, localOrder, localRemoved, now);
      ClearKeepsInstallCalls(rest, kind, localOrder, localRemoved, |localOrder|);
      ClearKeepsKeys(rest, kind);
      RemoveSets(localRemoved, kind, localOrder, s);
      ClearInstalled(kind);
      PlaceOrder(localOrder, localRemoved, kind, now, s, RemovalCalls(was, localRemoved, |localRemoved|));
      SweepSets();
    }

    method SaveStickerSets(localOrder: seq<SetId>, localRemoved: seq<SetId>, kind: StickersType, now: int)
      requires Inv(Requests())
      modifies this
      ensures sets == Saved(old(sets), kind, localOrder, localRemoved, now)
      ensures recent == SavedRecent(old(sets), localRemoved, old(recent))
      ensures OrderAt(orders, kind) == SavedOrder(old(sets), localOrder, localRemoved)
      ensures forall other :: other != kind ==> OrderAt(orders, other) == OrderAt(old(orders), other)
      ensures Requests() == Step(old(Requests()), Save(kind, localOrder, SaveCalls(old(sets), localOrder, localRemoved)))
      ensures Inv(Requests())
    {
      hide Inv, Saved, SavedRecent, SavedOrder, SaveCalls, CallsSent, OrderSent, OrderAt;
      ghost var s := Cancelled(Requests(), kind);
      StepKeepsInv(Requests(), Save(kind, localOrder, SaveCalls(sets, localOrder, localRemoved)));
      CancelRequests(kind);
      barriers := barriers[kind := At(Requests(), kind).(latest := Some(localOrder), sends := 0)];
      NothingSent(s, kind, localOrder);
      ChangeSets(localOrder, localRemoved, kind, now, s);
      if At(Requests(), kind).disenable == {} {
        StickersSaveOrder(kind, localOrder);
      }
    }
  }
}
