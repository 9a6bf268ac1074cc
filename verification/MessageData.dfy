// Batched loading of single messages (apiwrap.cpp): callbacks wait for a message, one request per channel
// asks for all the messages that wait, and its answer runs their callbacks.
module MessageData {
  import opened Options

  type Callback = nat

  // A message: its id, and its channel unless it is in the common id space.
  datatype Key = Key(channel: Option<nat>, msgId: nat)

  datatype Entry = Entry(requestId: nat, callbacks: seq<Callback>)

  // What a request under way asked for.
  datatype Sent = Sent(channel: Option<nat>, msgIds: set<nat>)

  // All waiting messages; whether resolveMessageDatas is scheduled; the requests under way; and every
  // callback ever registered and ever run.
  datatype State = State(
    entries: map<Key, Entry>, scheduled: bool, lastId: nat, inFlight: map<nat, Sent>,
    registered: multiset<Callback>, run: multiset<Callback>)

  datatype Event =
    | Register(key: Key, done: Option<Callback>)
    | SendBatch(channel: Option<nat>)   // one request of resolveMessageDatas
    | ResolveDone                       // resolveMessageDatas returns
    | Answer(id: nat)                   // done or fail

  const INITIAL := State(map[], false, 0, map[], multiset{}, multiset{})

  // ---- Callbacks waiting in a set of entries ----

  ghost function Pending(entries: map<Key, Entry>): multiset<Callback>
    decreases |entries|
  {
    if entries == map[] then multiset{}
    else
      var k :| k in entries;
      multiset(entries[k].callbacks) + Pending(entries - {k})
  }

  lemma {:induction false} PendingSplit(entries: map<Key, Entry>, k: Key)
    requires k in entries
    ensures Pending(entries) == multiset(entries[k].callbacks) + Pending(entries - {k})
    decreases |entries|
  {
    var j :| j in entries && Pending(entries) == multiset(entries[j].callbacks) + Pending(entries - {j});
    if j != k {
      PendingSplit(entries - {j}, k);
      PendingSplit(entries - {k}, j);
      assert entries - {j} - {k} == entries - {k} - {j};
    }
  }

  function Restrict(entries: map<Key, Entry>, part: set<Key>): map<Key, Entry> {
    map k | k in part && k in entries :: entries[k]
  }

  // Entries of one part and of the rest.
  lemma {:induction false} PendingPart(entries: map<Key, Entry>, part: set<Key>)
    requires part <= entries.Keys
    ensures Pending(entries) == Pending(Restrict(entries, part)) + Pending(entries - part)
    decreases |part|
  {
    hide Pending;
    if part == {} {
      assert entries - part == entries && Restrict(entries, part) == map[];
      PendingOfNothing();
    } else {
      var j :| j in part;
      var smaller := part - {j};
      PendingPart(entries, smaller);
      PendingSplit(Restrict(entries, part), j);
      PendingSplit(entries - smaller, j);
      assert Restrict(entries, part) - {j} == Restrict(entries, smaller);
      assert (entries - smaller) - {j} == entries - part;
    }
  }

  lemma PendingOfNothing()
    ensures Pending(map[]) == multiset{}
  {
  }

  // One more callback list at the end of an entry's, or a new entry.
  lemma PendingAdded(entries: map<Key, Entry>, k: Key, added: seq<Callback>)
    ensures var was := EntryAt(entries, k);
            Pending(entries[k := was.(callbacks := was.callbacks + added)]) == Pending(entries) + multiset(added)
  {
    hide Pending;
    var was := EntryAt(entries, k);
    var larger := entries[k := was.(callbacks := was.callbacks + added)];
    PendingSplit(larger, k);
    assert larger - {k} == entries - {k};
    if k in entries {
      PendingSplit(entries, k);
    } else {
      assert entries - {k} == entries;
    }
  }

  // Request ids do not matter.
  lemma {:induction false} PendingSame(a: map<Key, Entry>, b: map<Key, Entry>)
    requires a.Keys == b.Keys && forall k :: k in a ==> a[k].callbacks == b[k].callbacks
    ensures Pending(a) == Pending(b)
    decreases |a|
  {
    if a != map[] {
      var k :| k in a;
      PendingSplit(a, k);
      PendingSplit(b, k);
      PendingSame(a - {k}, b - {k});
    } else {
      assert b == map[];
    }
  }

  // ---- Steps ----

  function EntryAt(entries: map<Key, Entry>, key: Key): Entry {
    if key in entries then entries[key] else Entry(0, [])
  }

  function UnsentOf(entries: map<Key, Entry>, channel: Option<nat>): set<nat> {
    set k | k in entries && k.channel == channel && entries[k].requestId == 0 :: k.msgId
  }

  // The entries of a channel that have no request get one.
  function Assigned(entries: map<Key, Entry>, channel: Option<nat>, id: nat): map<Key, Entry> {
    map k | k in entries ::
      if k.channel == channel && entries[k].requestId == 0 then entries[k].(requestId := id) else entries[k]
  }

  ghost predicate Possible(s: State, e: Event) {
    match e
    case Register(_, _) => true
    case SendBatch(channel) => s.scheduled && UnsentOf(s.entries, channel) != {}
    case ResolveDone => s.scheduled && forall k :: k in s.entries ==> s.entries[k].requestId != 0
    case Answer(id) => id in s.inFlight
  }

  ghost function Step(s: State, e: Event): State
    requires Possible(s, e)
  {
    match e
    case Register(key, done) =>
      var was := EntryAt(s.entries, key);
      var added := if done.Some? then [done.value] else [];
      s.(entries := s.entries[key := was.(callbacks := was.callbacks + added)],
         scheduled := s.scheduled || was.requestId == 0,
         registered := s.registered + multiset(added))
    case SendBatch(channel) =>
      var id := s.lastId + 1;
      s.(entries := Assigned(s.entries, channel, id),
         lastId := id,
         inFlight := s.inFlight[id := Sent(channel, UnsentOf(s.entries, channel))])
    case ResolveDone => s.(scheduled := false)
    case Answer(id) =>
      s.(entries := s.entries - KeysOf(s.entries, id),
         inFlight := s.inFlight - {id},
         run := s.run + Pending(EntriesOf(s.entries, id)))
  }

  function KeysOf(entries: map<Key, Entry>, id: nat): set<Key> {
    set k | k in entries && entries[k].requestId == id
  }

  function EntriesOf(entries: map<Key, Entry>, id: nat): map<Key, Entry> {
    Restrict(entries, KeysOf(entries, id))
  }

  ghost predicate PossibleRun(s: State, es: seq<Event>)
    decreases |es|
  {
    es == [] || (Possible(s, es[0]) && PossibleRun(Step(s, es[0]), es[1..]))
  }

  ghost function Run(s: State, es: seq<Event>): State
    requires PossibleRun(s, es)
    decreases |es|
  {
    if es == [] then s else Run(Step(s, es[0]), es[1..])
  }

  lemma {:induction false} RunOneMore(s: State, es: seq<Event>, e: Event)
    requires PossibleRun(s, es)
    ensures Possible(Run(s, es), e) ==>
              PossibleRun(s, es + [e]) && Run(s, es + [e]) == Step(Run(s, es), e)
    decreases |es|
  {
    hide Step, Possible;
    if es == [] {
      assert (es + [e])[1..] == [];
    } else {
      RunOneMore(Step(s, es[0]), es[1..], e);
      assert (es + [e])[1..] == es[1..] + [e];
    }
  }

  // ---- What every step keeps ----

  function KeysAsked(sent: Sent): set<Key> {
    set m | m in sent.msgIds :: Key(sent.channel, m)
  }

  // A message is asked for by the request under way whose id it holds, and by no other.
  ghost predicate AskedOnce(entries: map<Key, Entry>, inFlight: map<nat, Sent>) {
    && (forall id :: id in inFlight ==> id != 0 && KeysAsked(inFlight[id]) == KeysOf(entries, id))
    && (forall k :: k in entries && entries[k].requestId != 0 ==> entries[k].requestId in inFlight)
  }

  ghost predicate Inv(s: State) {
    // callbacks registered are callbacks waiting and callbacks run
    && s.registered == Pending(s.entries) + s.run
    && AskedOnce(s.entries, s.inFlight)
    && (forall id :: id in s.inFlight ==> id <= s.lastId)
    // a message not asked for yet will be
    && (!s.scheduled ==> forall k :: k in s.entries ==> s.entries[k].requestId != 0)
  }

  lemma RegisterKeepsAskedOnce(entries: map<Key, Entry>, inFlight: map<nat, Sent>, k: Key, callbacks: seq<Callback>)
    requires AskedOnce(entries, inFlight)
    ensures AskedOnce(entries[k := EntryAt(entries, k).(callbacks := callbacks)], inFlight)
  {
    var larger := entries[k := EntryAt(entries, k).(callbacks := callbacks)];
    forall id | id in inFlight ensures KeysOf(larger, id) == KeysOf(entries, id) {
    }
  }

  lemma RegisterKeepsInv(s: State, e: Event)
    requires Inv(s) && e.Register?
    ensures Inv(Step(s, e))
  {
    hide Pending, AskedOnce, EntryAt;
    var was, added := EntryAt(s.entries, e.key), if e.done.Some? then [e.done.value] else [];
    var t := Step(s, e);
    PendingAdded(s.entries, e.key, added);
    assert t.registered == Pending(t.entries) + t.run;
    RegisterKeepsAskedOnce(s.entries, s.inFlight, e.key, was.callbacks + added);
    assert AskedOnce(t.entries, t.inFlight);
  }

  lemma BatchKeepsAskedOnce(entries: map<Key, Entry>, inFlight: map<nat, Sent>, channel: Option<nat>, id: nat)
    requires AskedOnce(entries, inFlight) && id != 0 && id !in inFlight
    ensures AskedOnce(Assigned(entries, channel, id), inFlight[id := Sent(channel, UnsentOf(entries, channel))])
  {
    var now, sent := Assigned(entries, channel, id), Sent(channel, UnsentOf(entries, channel));
    forall k ensures k in KeysAsked(sent) <==> k in KeysOf(now, id) {
      if k in KeysOf(now, id) {
        assert k.msgId in sent.msgIds && k == Key(channel, k.msgId);
      }
    }
    forall i | i in inFlight ensures KeysOf(now, i) == KeysOf(entries, i) {
    }
  }

  lemma BatchKeepsInv(s: State, e: Event)
    requires Inv(s) && e.SendBatch? && Possible(s, e)
    ensures Inv(Step(s, e))
  {
    hide Pending, AskedOnce, UnsentOf;
    PendingSame(s.entries, Step(s, e).entries);
    BatchKeepsAskedOnce(s.entries, s.inFlight, e.channel, s.lastId + 1);
  }

  lemma ResolveDoneKeepsInv(s: State)
    requires Inv(s) && Possible(s, ResolveDone)
    ensures Inv(Step(s, ResolveDone))
  {
  }

  lemma AnswerKeepsAskedOnce(entries: map<Key, Entry>, inFlight: map<nat, Sent>, id: nat)
    requires AskedOnce(entries, inFlight) && id in inFlight
    ensures AskedOnce(entries - KeysOf(entries, id), inFlight - {id})
  {
    forall i | i in inFlight - {id} ensures KeysOf(entries - KeysOf(entries, id), i) == KeysOf(entries, i) {
    }
  }

  lemma AnswerKeepsInv(s: State, e: Event)
    requires Inv(s) && e.Answer? && Possible(s, e)
    ensures Inv(Step(s, e))
  {
    hide Pending, AskedOnce;
    PendingPart(s.entries, KeysOf(s.entries, e.id));
    AnswerKeepsAskedOnce(s.entries, s.inFlight, e.id);
  }

  lemma {:induction false} RunKeepsInv(s: State, es: seq<Event>)
    requires Inv(s) && PossibleRun(s, es)
    ensures Inv(Run(s, es))
    decreases |es|
  {
    hide Inv, Step, Possible;
    if es != [] {
      match es[0]
      case Register(_, _) => RegisterKeepsInv(s, es[0]);
      case SendBatch(_) => BatchKeepsInv(s, es[0]);
      case ResolveDone => ResolveDoneKeepsInv(s);
      case Answer(_) => AnswerKeepsInv(s, es[0]);
    }
    if es != [] {
      RunKeepsInv(Step(s, es[0]), es[1..]);
    }
  }

  // ---- What it means for callbacks ----

  // An answer runs exactly the callbacks waiting for the messages its request asked for, and no message
  // of the request is waiting afterwards.
  lemma AnswerRunsItsCallbacks(es: seq<Event>, id: nat)
    requires PossibleRun(INITIAL, es) && id in Run(INITIAL, es).inFlight
    ensures var s := Run(INITIAL, es);
            var t := Step(s, Answer(id));
            var asked := KeysAsked(s.inFlight[id]);
            asked <= s.entries.Keys
            && t.run == s.run + Pending(Restrict(s.entries, asked))
            && t.entries == s.entries - asked
  {
    InitialInv();
    RunKeepsInv(INITIAL, es);
    var s := Run(INITIAL, es);
  }

  lemma InitialInv()
    ensures Inv(INITIAL)
  {
  }

  // Nothing is lost, and nothing is run twice: in every reachable state the callbacks registered are those
  // run and those still waiting; and when nothing is scheduled or under way, all have been run.
  lemma CallbacksRunExactlyOnce(es: seq<Event>)
    requires PossibleRun(INITIAL, es)
    ensures var s := Run(INITIAL, es);
            s.registered == Pending(s.entries) + s.run
            && (!s.scheduled && s.inFlight == map[] ==> s.run == s.registered)
  {
    InitialInv();
    RunKeepsInv(INITIAL, es);
    var s := Run(INITIAL, es);
    if !s.scheduled && s.inFlight == map[] {
      assert s.entries == map[];
    }
  }

  // ---- What a step does to each message ----

  // A callback is put behind those that wait for its message already, and no other message is touched; one not
  // asked for yet will be.
  lemma CallbackWaits(s: State, key: Key, done: Option<Callback>)
    ensures var t := Step(s, Register(key, done));
            var was := if key in s.entries then s.entries[key] else Entry(0, []);
            && t.entries == s.entries[key := Entry(was.requestId, was.callbacks + if done.Some? then [done.value] else [])]
            && (was.requestId == 0 ==> t.scheduled) && (s.scheduled ==> t.scheduled)
            && t.inFlight == s.inFlight && t.run == s.run
  {
  }

  // A batch asks for every message of its channel that was not asked for, and for no other.
  lemma BatchAsksForAll(s: State, channel: Option<nat>)
    requires Possible(s, SendBatch(channel))
    ensures var t := Step(s, SendBatch(channel));
            var id := s.lastId + 1;
            && t.lastId == id && id in t.inFlight && t.inFlight[id].channel == channel
            && (forall m :: m in t.inFlight[id].msgIds <==>
                  Key(channel, m) in s.entries && s.entries[Key(channel, m)].requestId == 0)
            && t.entries.Keys == s.entries.Keys
            && (forall k :: k in s.entries ==>
                  t.entries[k] == if k.channel == channel && s.entries[k].requestId == 0 then Entry(id, s.entries[k].callbacks)
                                  else s.entries[k])
            && t.run == s.run
  {
  }

  // An answer takes out the messages that hold its id, and no other.
  lemma AnswerTakesItsMessages(s: State, id: nat, k: Key)
    requires Possible(s, Answer(id))
    ensures var t := Step(s, Answer(id));
            && (k in t.entries <==> k in s.entries && s.entries[k].requestId != id)
            && (k in t.entries ==> t.entries[k] == s.entries[k])
            && t.inFlight == s.inFlight - {id}
  {
    hide Pending;
  }

  // When one message holds the id, its callbacks are run.
  lemma CallbacksOfOneMessageRun(s: State, id: nat, k: Key)
    requires Possible(s, Answer(id)) && k in s.entries && s.entries[k].requestId == id
    requires forall other :: other in s.entries && s.entries[other].requestId == id ==> other == k
    ensures Step(s, Answer(id)).run == s.run + multiset(s.entries[k].callbacks)
  {
    hide Pending;
    var held := EntriesOf(s.entries, id);
    assert held == map[k := s.entries[k]];
    PendingSplit(held, k);
    assert held - {k} == map[];
    PendingOfNothing();
  }

  // ---- The object ----

  predicate AllBatches(es: seq<Event>) {
    forall i :: 0 <= i < |es| ==> es[i].SendBatch?
  }

  function UnsentKeys(entries: map<Key, Entry>): set<Key> {
    set k | k in entries && entries[k].requestId == 0
  }

  lemma UnsentAreEntries(entries: map<Key, Entry>)
    ensures forall k :: k in UnsentKeys(entries) ==> k in entries && entries[k].requestId == 0
    ensures UnsentKeys(entries) == {} ==> forall k :: k in entries ==> entries[k].requestId != 0
  {
    assert forall k :: k in entries && entries[k].requestId == 0 ==> k in UnsentKeys(entries);
  }

  lemma NoEvents(s: State)
    ensures PossibleRun(s, []) && Run(s, []) == s
  {
  }

  type Requests = map<nat, Entry>

  function KeyOf(channel: Option<nat>, requests: Requests): (keys: set<Key>)
    ensures forall k :: k in keys <==> k.channel == channel && k.msgId in requests
  {
    assert forall k: Key :: k == Key(k.channel, k.msgId);
    set m | m in requests :: Key(channel, m)
  }

  ghost function FlatKeys(plain: Requests, channels: map<nat, Requests>): set<Key> {
    KeyOf(None, plain) + (set c, k | c in channels && k in KeyOf(Some(c), channels[c]) :: k)
  }

  lemma FlatKeysAre(plain: Requests, channels: map<nat, Requests>, k: Key)
    ensures k in FlatKeys(plain, channels) <==> k.msgId in RequestsOf(plain, channels, k.channel)
  {
    if k.channel.Some? && k.channel.value in channels {
      var c := k.channel.value;
      assert k in KeyOf(Some(c), channels[c]) <==> k.msgId in channels[c];
    }
  }

  // All entries of the two maps, under one kind of key.
  ghost function Flat(plain: Requests, channels: map<nat, Requests>): (entries: map<Key, Entry>)
    ensures forall k :: k in entries <==> k.msgId in RequestsOf(plain, channels, k.channel)
    ensures forall k :: k in entries ==> entries[k] == RequestsOf(plain, channels, k.channel)[k.msgId]
  {
    assert forall k :: k in FlatKeys(plain, channels) <==> k.msgId in RequestsOf(plain, channels, k.channel) by {
      forall k ensures k in FlatKeys(plain, channels) <==> k.msgId in RequestsOf(plain, channels, k.channel) {
        FlatKeysAre(plain, channels, k);
      }
    }
    map k | k in FlatKeys(plain, channels) :: RequestsOf(plain, channels, k.channel)[k.msgId]
  }

  // messageDataRequests(channel): the map of one channel, or of the common id space.
  function RequestsOf(plain: Requests, channels: map<nat, Requests>, channel: Option<nat>): Requests {
    match channel
    case None => plain
    case Some(c) => if c in channels then channels[c] else map[]
  }

  function UnsentIn(requests: Requests): (msgIds: set<nat>)
    ensures msgIds <= requests.Keys
  {
    set m | m in requests && requests[m].requestId == 0
  }

  // collectMessageIds
  method CollectMessageIds(requests: Requests) returns (result: seq<nat>)
    ensures forall m :: m in result <==> m in UnsentIn(requests)
    ensures forall i, j :: 0 <= i < j < |result| ==> result[i] != result[j]
  {
    result := [];
    var rest := requests.Keys;
    while rest != {}
      invariant rest <= requests.Keys
      invariant forall m :: m in result <==> m in UnsentIn(requests) && m !in rest
      invariant forall i, j :: 0 <= i < j < |result| ==> result[i] != result[j]
      decreases |rest|
    {
      var msgId :| msgId in rest;
      rest := rest - {msgId};
      if requests[msgId].requestId > 0 {
        continue;
      }
      result := result + [msgId];
    }
  }

  function AssignedIn(requests: Requests, requestId: nat): (stored: Requests)
    ensures stored.Keys == requests.Keys
  {
    map m | m in requests ::
      if requests[m].requestId == 0 then requests[m].(requestId := requestId) else requests[m]
  }

  // The loop that stores a batch's request id in its entries.
  method StoreRequestId(requests: Requests, requestId: nat) returns (result: Requests)
    ensures result == AssignedIn(requests, requestId)
  {
    result := requests;
    var rest := requests.Keys;
    while rest != {}
      invariant rest <= requests.Keys == result.Keys
      invariant forall m :: m in requests ==>
        result[m] == if requests[m].requestId == 0 && m !in rest then requests[m].(requestId := requestId) else requests[m]
      decreases |rest|
    {
      var msgId :| msgId in rest;
      rest := rest - {msgId};
      if result[msgId].requestId > 0 {
        continue;
      }
      result := result[msgId := result[msgId].(requestId := requestId)];
    }
  }

  function Without(requests: Requests, requestId: nat): Requests {
    map m | m in requests && requests[m].requestId != requestId :: requests[m]
  }

  function MsgIdsOf(requests: Requests, requestId: nat): set<nat> {
    set m | m in requests && requests[m].requestId == requestId
  }

  function Taken(channel: Option<nat>, requests: Requests, taken: set<nat>): map<Key, Entry> {
    map k | k in KeyOf(channel, requests) && k.msgId in taken :: requests[k.msgId]
  }

  // The loop of finalizeMessageDataRequest: entries of the request leave the map, with their callbacks.
  method TakeRequest(ghost channel: Option<nat>, requests: Requests, requestId: nat)
    returns (result: Requests, callbacks: seq<Callback>)
    ensures result == Without(requests, requestId)
    ensures multiset(callbacks) == Pending(Taken(channel, requests, MsgIdsOf(requests, requestId)))
  {
    hide Pending, Taken;
    NothingTaken(channel, requests);
    result, callbacks := requests, [];
    var rest := requests.Keys;
    ghost var taken: set<nat> := {};
    while rest != {}
      invariant rest <= requests.Keys
      invariant taken == MsgIdsOf(requests, requestId) - rest
      invariant result.Keys == requests.Keys - taken && forall m :: m in result ==> result[m] == requests[m]
      invariant multiset(callbacks) == Pending(Taken(channel, requests, taken))
      decreases |rest|
    {
      var msgId :| msgId in rest;
      rest := rest - {msgId};
      if requests[msgId].requestId == requestId {
        TakeOneMore(channel, requests, taken, msgId);
        callbacks := callbacks + requests[msgId].callbacks;
        taken := taken + {msgId};
        result := result - {msgId};
      }
    }
    assert taken == MsgIdsOf(requests, requestId);
  }

  lemma NothingTaken(channel: Option<nat>, requests: Requests)
    ensures Pending(Taken(channel, requests, {})) == multiset{}
  {
    assert Taken(channel, requests, {}) == map[];
  }

  lemma TakeOneMore(channel: Option<nat>, requests: Requests, taken: set<nat>, msgId: nat)
    requires msgId in requests && msgId !in taken
    ensures Pending(Taken(channel, requests, taken + {msgId}))
         == Pending(Taken(channel, requests, taken)) + multiset(requests[msgId].callbacks)
  {
    var m, k := Taken(channel, requests, taken + {msgId}), Key(channel, msgId);
    PendingSplit(m, k);
    assert m - {k} == Taken(channel, requests, taken);
  }

  class ApiWrap {
    var messageDataRequests: Requests
    var channelMessageDataRequests: map<nat, Requests>
    var resolveScheduled: bool        // _messageDataResolveDelayed
    var lastId: nat
    var inFlight: map<nat, Sent>
    ghost var registered: multiset<Callback>
    ghost var run: multiset<Callback>

    ghost function Abs(): State
      reads this
    {
      State(Flat(messageDataRequests, channelMessageDataRequests), resolveScheduled, lastId, inFlight, registered, run)
    }

    ghost predicate Valid()
      reads this
    {
      Inv(Abs())
    }

    constructor ()
      ensures Valid() && Abs() == INITIAL
    {
      messageDataRequests, channelMessageDataRequests := map[], map[];
      resolveScheduled, lastId, inFlight := false, 0, map[];
      registered, run := multiset{}, multiset{};
      new;
      assert Flat(messageDataRequests, channelMessageDataRequests) == map[];
      InitialInv();
    }

    method RequestMessageData(channel: Option<nat>, msgId: nat, done: Option<Callback>)
      requires Valid()
      modifies this
      ensures Valid()
      ensures Abs() == Step(old(Abs()), Register(Key(channel, msgId), done))
    {
      hide Inv, Pending, Flat, Stored, RequestsOf, Step;
      ghost var plain, channels := messageDataRequests, channelMessageDataRequests;
      RegisterKeepsInv(Abs(), Register(Key(channel, msgId), done));
      var requests := RequestsOf(messageDataRequests, channelMessageDataRequests, channel);
      var entry := if msgId in requests then requests[msgId] else Entry(0, []);
      if done.Some? {
        entry := entry.(callbacks := entry.callbacks + [done.value]);
        registered := registered + multiset{done.value};
      }
      if entry.requestId == 0 {
        resolveScheduled := true;
      }
      StoreRequests(channel, requests[msgId := entry]);
      RegisterStored(old(Abs()), plain, channels, channel, msgId, done, entry, messageDataRequests, channelMessageDataRequests);
    }

    // One request of resolveMessageDatas, if any message of the channel was not asked for yet.
    method SendBatch(channel: Option<nat>)
      requires Valid() && resolveScheduled && (channel.Some? ==> channel.value in channelMessageDataRequests)
      modifies this
      ensures Valid()
      ensures Abs() == if UnsentOf(old(Abs()).entries, channel) == {} then old(Abs())
                       else Step(old(Abs()), Event.SendBatch(channel))
      ensures channelMessageDataRequests.Keys == old(channelMessageDataRequests.Keys)
    {
      hide Inv, Pending, Flat, Stored, AssignedIn, Assigned, UnsentIn, UnsentOf, RequestsOf;
      ghost var was := Abs();
      UnsentOfFlat(messageDataRequests, channelMessageDataRequests, channel);
      var requests := RequestsOf(messageDataRequests, channelMessageDataRequests, channel);
      var ids := CollectMessageIds(requests);
      if ids == [] {
        assert UnsentIn(requests) == {};
        return;
      }
      assert ids[0] in UnsentIn(requests);
      var asked := set m | m in ids;
      assert asked == UnsentIn(requests) == UnsentOf(was.entries, channel);
      BatchKeepsInv(was, Event.SendBatch(channel));
      lastId := lastId + 1;
      inFlight := inFlight[lastId := Sent(channel, asked)];
      requests := StoreRequestId(requests, lastId);
      StoreRequests(channel, requests);
      FlatAssigned(old(messageDataRequests), old(channelMessageDataRequests), channel, lastId,
                   messageDataRequests, channelMessageDataRequests);
    }

    // SendBatch as a step, if it is one, of a run `es` from state `start` to here.
    method SendBatchLogged(channel: Option<nat>, ghost start: State, ghost es: seq<Event>) returns (ghost after: seq<Event>)
      requires Valid() && resolveScheduled && (channel.Some? ==> channel.value in channelMessageDataRequests)
      requires PossibleRun(start, es) && Abs() == Run(start, es) && AllBatches(es)
      modifies this
      ensures Valid() && resolveScheduled
      ensures channelMessageDataRequests.Keys == old(channelMessageDataRequests.Keys)
      ensures PossibleRun(start, after) && Abs() == Run(start, after) && AllBatches(after)
      ensures UnsentKeys(Abs().entries) <= old(UnsentKeys(Abs().entries)) - (set k | k in Abs().entries && k.channel == channel)
    {
      hide Inv, Flat, Pending, PossibleRun, Run;
      after := es;
      if UnsentOf(Abs().entries, channel) == {} {
        assert forall k :: k in UnsentKeys(Abs().entries) && k.channel == channel
                           ==> k.msgId in UnsentOf(Abs().entries, channel);
      } else {
        RunOneMore(start, es, Event.SendBatch(channel));
        after := es + [Event.SendBatch(channel)];
      }
      SendBatch(channel);
    }

    method ResolveMessageDatas() returns (ghost es: seq<Event>)
      requires Valid() && resolveScheduled
      modifies this
      ensures Valid()
      ensures es != [] && es[|es| - 1] == ResolveDone && AllBatches(es[..|es| - 1])
      ensures PossibleRun(old(Abs()), es) && Abs() == Run(old(Abs()), es)
    {
      hide Inv, Flat, Pending, PossibleRun, Run, UnsentKeys;
      ghost var was := Abs();
      es := [];
      NoEvents(was);
      if messageDataRequests != map[] || channelMessageDataRequests != map[] {
        es := SendBatchLogged(None, was, es);
        UnsentAreEntries(Abs().entries);
        es := SendChannelBatches(was, es);
      } else {
        NothingHeld(messageDataRequests, channelMessageDataRequests);
      }
      UnsentAreEntries(Abs().entries);
      ResolveDoneKeepsInv(Abs());
      RunOneMore(was, es, ResolveDone);
      es := es + [ResolveDone];
      resolveScheduled := false;
    }

    // The requests of the channels; channels that nothing waits for are dropped.
    method SendChannelBatches(ghost was: State, ghost before: seq<Event>) returns (ghost es: seq<Event>)
      requires Valid() && resolveScheduled
      requires PossibleRun(was, before) && Abs() == Run(was, before) && AllBatches(before)
      requires forall k :: k in UnsentKeys(Abs().entries) ==> k.channel.Some?
      modifies this
      ensures Valid() && resolveScheduled
      ensures PossibleRun(was, es) && Abs() == Run(was, es) && AllBatches(es)
      ensures UnsentKeys(Abs().entries) == {}
    {
      hide Inv, Flat, Pending, PossibleRun, Run, AllBatches, UnsentKeys;
      es := before;
      var todo := channelMessageDataRequests.Keys;
      HeldByChannel(messageDataRequests, channelMessageDataRequests);
      UnsentAreEntries(Abs().entries);
      while todo != {}
        invariant todo <= channelMessageDataRequests.Keys && Valid() && resolveScheduled
        invariant PossibleRun(was, es) && Abs() == Run(was, es) && AllBatches(es)
        invariant forall k :: k in UnsentKeys(Abs().entries) ==> k.channel.Some? && k.channel.value in todo
        decreases |todo|
      {
        var c :| c in todo;
        todo := todo - {c};
        if channelMessageDataRequests[c] == map[] {
          HeldByChannel(messageDataRequests, channelMessageDataRequests);
          UnsentAreEntries(Abs().entries);
          FlatWithoutEmpty(messageDataRequests, channelMessageDataRequests, c);
          channelMessageDataRequests := channelMessageDataRequests - {c};
        } else {
          es := SendBatchLogged(Some(c), was, es);
          UnsentAreEntries(Abs().entries);
        }
      }
    }

    // A channel's map changes in place; an emptied one is dropped.
    method StoreRequests(channel: Option<nat>, requests: Requests)
      modifies this`messageDataRequests, this`channelMessageDataRequests
      ensures Stored(old(messageDataRequests), old(channelMessageDataRequests), channel, requests,
                     messageDataRequests, channelMessageDataRequests)
      ensures requests != map[] ==>
                channelMessageDataRequests.Keys
                == old(channelMessageDataRequests.Keys) + if channel.Some? then {channel.value} else {}
    {
      match channel {
        case None =>
          messageDataRequests := requests;
        case Some(c) =>
          if requests == map[] {
            channelMessageDataRequests := channelMessageDataRequests - {c};
          } else {
            channelMessageDataRequests := channelMessageDataRequests[c := requests];
          }
      }
    }

    // The answer to a request, done or failed, after the messages of the result have been processed.
    method FinalizeMessageDataRequest(channel: Option<nat>, requestId: nat)
      requires Valid() && requestId in inFlight && inFlight[requestId].channel == channel
      modifies this
      ensures Valid()
      ensures Abs() == Step(old(Abs()), Answer(requestId))
    {
      hide Inv, Pending;
      ghost var was := Abs();
      AnswerKeepsInv(was, Answer(requestId));
      var requests := RequestsOf(messageDataRequests, channelMessageDataRequests, channel);
      OneChannelHoldsRequest(was, messageDataRequests, channelMessageDataRequests, requestId);
      var rest, callbacks := TakeRequest(channel, requests, requestId);
      StoreRequests(channel, rest);
      FlatWithout(old(messageDataRequests), old(channelMessageDataRequests), channel, requestId,
                  messageDataRequests, channelMessageDataRequests);
      inFlight := inFlight - {requestId};
      run := run + multiset(callbacks);
    }
  }

  // The two maps after one channel's map became `requests`.
  ghost predicate Stored(plain: Requests, channels: map<nat, Requests>, channel: Option<nat>, requests: Requests,
                         newPlain: Requests, newChannels: map<nat, Requests>)
  {
    forall d :: RequestsOf(newPlain, newChannels, d)
             == if d == channel then requests else RequestsOf(plain, channels, d)
  }

  lemma FlatAt(plain: Requests, channels: map<nat, Requests>, k: Key)
    ensures var requests := RequestsOf(plain, channels, k.channel);
            EntryAt(Flat(plain, channels), k)
              == if k.msgId in requests then requests[k.msgId] else Entry(0, [])
  {
  }

  lemma FlatOneMore(plain: Requests, channels: map<nat, Requests>, channel: Option<nat>, msgId: nat, entry: Entry,
                    newPlain: Requests, newChannels: map<nat, Requests>)
    requires Stored(plain, channels, channel, RequestsOf(plain, channels, channel)[msgId := entry],
                    newPlain, newChannels)
    ensures Flat(newPlain, newChannels) == Flat(plain, channels)[Key(channel, msgId) := entry]
  {
    hide Flat;
    var now, then_ := Flat(newPlain, newChannels), Flat(plain, channels)[Key(channel, msgId) := entry];
    forall k ensures (k in now <==> k in then_) && (k in now ==> now[k] == then_[k]) {
    }
  }

  // Storing the entry with the callback added is the step.
  lemma RegisterStored(s: State, plain: Requests, channels: map<nat, Requests>, channel: Option<nat>, msgId: nat,
                       done: Option<Callback>, entry: Entry, newPlain: Requests, newChannels: map<nat, Requests>)
    requires s.entries == Flat(plain, channels)
    requires var requests := RequestsOf(plain, channels, channel);
             var was := if msgId in requests then requests[msgId] else Entry(0, []);
             && entry == (if done.Some? then was.(callbacks := was.callbacks + [done.value]) else was)
             && Stored(plain, channels, channel, requests[msgId := entry], newPlain, newChannels)
    ensures Step(s, Register(Key(channel, msgId), done))
            == s.(entries := Flat(newPlain, newChannels), scheduled := s.scheduled || entry.requestId == 0,
                  registered := if done.Some? then s.registered + multiset{done.value} else s.registered)
  {
    hide Flat, Stored, RequestsOf, EntryAt;
    FlatAt(plain, channels, Key(channel, msgId));
    FlatOneMore(plain, channels, channel, msgId, entry, newPlain, newChannels);
    var was := EntryAt(s.entries, Key(channel, msgId));
    assert was.callbacks + [] == was.callbacks;
  }

  lemma UnsentOfFlat(plain: Requests, channels: map<nat, Requests>, d: Option<nat>)
    ensures UnsentOf(Flat(plain, channels), d) == UnsentIn(RequestsOf(plain, channels, d))
  {
    hide Flat;
    var entries, requests := Flat(plain, channels), RequestsOf(plain, channels, d);
    forall m ensures m in UnsentOf(entries, d) <==> m in UnsentIn(requests) {
      if m in UnsentIn(requests) {
        assert Key(d, m) in entries;
      }
    }
  }

  lemma FlatAssigned(plain: Requests, channels: map<nat, Requests>, channel: Option<nat>, id: nat,
                     newPlain: Requests, newChannels: map<nat, Requests>)
    requires Stored(plain, channels, channel, AssignedIn(RequestsOf(plain, channels, channel), id), newPlain, newChannels)
    ensures Flat(newPlain, newChannels) == Assigned(Flat(plain, channels), channel, id)
  {
    hide Flat;
    var now, then_ := Flat(newPlain, newChannels), Assigned(Flat(plain, channels), channel, id);
    forall k ensures (k in now <==> k in then_) && (k in now ==> now[k] == then_[k]) {
    }
  }

  lemma NothingHeld(plain: Requests, channels: map<nat, Requests>)
    requires plain == map[] && channels == map[]
    ensures Flat(plain, channels) == map[]
  {
    assert forall k :: k !in Flat(plain, channels);
  }

  lemma HeldByChannel(plain: Requests, channels: map<nat, Requests>)
    ensures forall k :: k in Flat(plain, channels) && k.channel.Some? ==>
              k.channel.value in channels && k.msgId in channels[k.channel.value]
  {
  }

  lemma FlatWithoutEmpty(plain: Requests, channels: map<nat, Requests>, c: nat)
    requires c in channels && channels[c] == map[]
    ensures Flat(plain, channels - {c}) == Flat(plain, channels)
  {
    hide Flat;
    var now, then_ := Flat(plain, channels - {c}), Flat(plain, channels);
    forall k ensures (k in now <==> k in then_) && (k in now ==> now[k] == then_[k]) {
    }
  }

  lemma FlatWithout(plain: Requests, channels: map<nat, Requests>, channel: Option<nat>, id: nat,
                    newPlain: Requests, newChannels: map<nat, Requests>)
    requires Stored(plain, channels, channel, Without(RequestsOf(plain, channels, channel), id), newPlain, newChannels)
    requires forall k :: k in KeysOf(Flat(plain, channels), id) ==> k.channel == channel
    ensures Flat(newPlain, newChannels) == Flat(plain, channels) - KeysOf(Flat(plain, channels), id)
  {
    hide Flat;
    var was, now := Flat(plain, channels), Flat(newPlain, newChannels);
    var rest := was - KeysOf(was, id);
    forall k ensures (k in now <==> k in rest) && (k in now ==> now[k] == rest[k]) {
    }
  }

  lemma OneChannelHoldsRequest(s: State, plain: Requests, channels: map<nat, Requests>, id: nat)
    requires Inv(s) && s.entries == Flat(plain, channels) && id in s.inFlight
    ensures var channel := s.inFlight[id].channel;
            var requests := RequestsOf(plain, channels, channel);
            (forall k :: k in KeysOf(s.entries, id) ==> k.channel == channel)
            && Taken(channel, requests, MsgIdsOf(requests, id)) == EntriesOf(s.entries, id)
  {
    hide Pending, Flat;
    assert forall k :: k in KeysAsked(s.inFlight[id]) ==> k.channel == s.inFlight[id].channel;
    EntriesOfChannel(plain, channels, s.inFlight[id].channel, id);
  }

  lemma EntriesOfChannel(plain: Requests, channels: map<nat, Requests>, channel: Option<nat>, id: nat)
    requires forall k :: k in KeysOf(Flat(plain, channels), id) ==> k.channel == channel
    ensures var requests := RequestsOf(plain, channels, channel);
            Taken(channel, requests, MsgIdsOf(requests, id)) == EntriesOf(Flat(plain, channels), id)
  {
    var requests := RequestsOf(plain, channels, channel);
    var taken, entries := Taken(channel, requests, MsgIdsOf(requests, id)), Flat(plain, channels);
    forall k ensures k in taken <==> k in KeysOf(entries, id) {
    }
  }
}
