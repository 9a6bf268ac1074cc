// Forwarding messages (ApiWrap::forwardMessages): saved music is sent as documents, the other items in batches
// of one source peer each, paid for from the approved stars; success is reported when every batch is.
module ForwardMessages {
  import opened Options

  type PeerId = nat
  type MsgId = int
  type Document = nat

  datatype Item = Item(peer: PeerId, id: MsgId, savedMusic: Option<Document>)

  // One request: the ids of messages from one peer, with as many random ids, and the stars paid.
  datatype Batch = Batch(from: PeerId, ids: seq<MsgId>, randomIds: seq<nat>, stars: nat)

  // A message, wherever it is from, with the random id it is forwarded under.
  datatype Forwarded = Forwarded(peer: PeerId, id: MsgId, randomId: nat)

  // ---- Saved music ----

  function Others(items: seq<Item>): seq<Item> {
    if items == [] then []
    else
      var last := items[|items| - 1];
      Others(items[..|items| - 1]) + if last.savedMusic.Some? then [] else [last]
  }

  function Music(items: seq<Item>): seq<Document> {
    if items == [] then []
    else
      var last := items[|items| - 1];
      Music(items[..|items| - 1]) + if last.savedMusic.Some? then [last.savedMusic.value] else []
  }

  lemma OneMoreItem(items: seq<Item>, last: Item)
    ensures Others(items + [last]) == Others(items) + if last.savedMusic.Some? then [] else [last]
    ensures Music(items + [last]) == Music(items) + if last.savedMusic.Some? then [last.savedMusic.value] else []
  {
    assert (items + [last])[..|items|] == items;
  }

  // Any item, wherever it stands, is sent once, as a document or with the others, after what comes before it
  // and before what comes after it.
  lemma {:induction false} EveryItemIsSentOnce(items: seq<Item>, k: nat)
    requires k < |items|
    ensures var music := items[k].savedMusic;
            && Others(items)
               == Others(items[..k]) + (if music.Some? then [] else [items[k]]) + Others(items[k + 1..])
            && Music(items)
               == Music(items[..k]) + (if music.Some? then [music.value] else []) + Music(items[k + 1..])
  {
    var rest := items[k + 1..];
    assert items[..k + 1] == items[..k] + [items[k]] && items == items[..k + 1] + rest;
    OneMoreItem(items[..k], items[k]);
    SentInOrder(items[..k + 1], rest);
  }

  lemma {:induction false} SentInOrder(a: seq<Item>, b: seq<Item>)
    ensures Others(a + b) == Others(a) + Others(b) && Music(a + b) == Music(a) + Music(b)
  {
    if b == [] {
      assert a + b == a;
    } else {
      var last := |b| - 1;
      assert a + b == (a + b[..last]) + [b[last]] && b == b[..last] + [b[last]];
      SentInOrder(a, b[..last]);
      OneMoreItem(a + b[..last], b[last]);
      OneMoreItem(b[..last], b[last]);
    }
  }

  lemma {:induction false} ItemsCounted(items: seq<Item>)
    ensures |Others(items)| + |Music(items)| == |items|
  {
    if items != [] {
      ItemsCounted(items[..|items| - 1]);
    }
  }

  // ---- Batches ----

  function MessagesOf(b: Batch): seq<Forwarded>
    requires |b.randomIds| == |b.ids|
  {
    seq(|b.ids|, k requires 0 <= k < |b.ids| => Forwarded(b.from, b.ids[k], b.randomIds[k]))
  }

  predicate WellFormed(batches: seq<Batch>) {
    forall b :: b in batches ==> |b.ids| == |b.randomIds|
  }

  function Messages(batches: seq<Batch>): seq<Forwarded>
    requires WellFormed(batches)
  {
    if batches == [] then [] else Messages(batches[..|batches| - 1]) + MessagesOf(batches[|batches| - 1])
  }

  function Sources(items: seq<Item>, randoms: seq<nat>): seq<Forwarded>
    requires |items| == |randoms|
  {
    seq(|items|, k requires 0 <= k < |items| => Forwarded(items[k].peer, items[k].id, randoms[k]))
  }

  // The batches forward the items in order; none is empty, and each ends only where the peer changes.
  predicate IsSplit(batches: seq<Batch>, messages: seq<Forwarded>) {
    && WellFormed(batches)
    && Messages(batches) == messages
    && (forall k :: 0 <= k < |batches| ==> batches[k].ids != [])
    && (forall k :: 0 < k < |batches| ==> batches[k - 1].from != batches[k].from)
  }

  // The last batch is all that comes from the last peer.
  lemma LastBatch(a: seq<Batch>, messages: seq<Forwarded>)
    requires IsSplit(a, messages) && a != []
    ensures var x, n := a[|a| - 1], |messages|;
            && 0 < |x.ids| <= n && |x.randomIds| == |x.ids|
            && messages[..n - |x.ids|] == Messages(a[..|a| - 1])
            && messages[n - |x.ids|..] == MessagesOf(x)
            && (forall i :: n - |x.ids| <= i < n ==> messages[i].peer == x.from)
            && (|x.ids| < n ==> messages[n - |x.ids| - 1].peer != x.from)
  {
    var x, n := a[|a| - 1], |messages|;
    var before := Messages(a[..|a| - 1]);
    assert |MessagesOf(x)| == |x.ids| && n == |before| + |x.ids|;
    assert x.ids != [];
    forall i | n - |x.ids| <= i < n ensures messages[i].peer == x.from {
      assert messages[i] == MessagesOf(x)[i - |before|];
    }
    if |before| > 0 {
      var z := a[|a| - 2];
      assert a[..|a| - 1][..|a| - 2] == a[..|a| - 2];
      assert z.ids != [] && |MessagesOf(z)| == |z.ids|;
      assert messages[|before| - 1] == before[|before| - 1] == MessagesOf(z)[|z.ids| - 1];
    }
  }

  lemma PartsOfSplit(a: seq<Batch>, messages: seq<Forwarded>)
    requires IsSplit(a, messages) && a != []
    ensures IsSplit(a[..|a| - 1], Messages(a[..|a| - 1]))
  {
  }

  // There is one such split.
  lemma {:induction false} SplitIsUnique(a: seq<Batch>, b: seq<Batch>, messages: seq<Forwarded>)
    requires IsSplit(a, messages) && IsSplit(b, messages)
    ensures |a| == |b|
    ensures forall k :: 0 <= k < |a| ==> SameButStars(a[k], b[k])
    decreases |a|
  {
    hide IsSplit;
    if a == [] || b == [] {
      NoBatches(a, messages);
      NoBatches(b, messages);
    } else {
      LastBatch(a, messages);
      LastBatch(b, messages);
      PartsOfSplit(a, messages);
      PartsOfSplit(b, messages);
      var x, y, n := a[|a| - 1], b[|b| - 1], |messages|;
      assert messages[n - 1].peer == x.from == y.from;
      assert |x.ids| == |y.ids|;
      SameMessages(x, y);
      SplitIsUnique(a[..|a| - 1], b[..|b| - 1], messages[..n - |x.ids|]);
    }
  }

  predicate SameButStars(x: Batch, y: Batch) {
    x.from == y.from && x.ids == y.ids && x.randomIds == y.randomIds
  }

  lemma SameMessages(x: Batch, y: Batch)
    requires |x.ids| == |x.randomIds| && |y.ids| == |y.randomIds| && x.ids != []
    requires MessagesOf(x) == MessagesOf(y)
    ensures SameButStars(x, y)
  {
    assert |MessagesOf(x)| == |x.ids| && |MessagesOf(y)| == |y.ids|;
    forall k | 0 <= k < |x.ids| ensures x.from == y.from && x.ids[k] == y.ids[k] && x.randomIds[k] == y.randomIds[k] {
      assert MessagesOf(x)[k] == MessagesOf(y)[k];
    }
    assert x.ids[0] == y.ids[0];
    assert x.ids == y.ids && x.randomIds == y.randomIds;
  }

  lemma NoBatches(a: seq<Batch>, messages: seq<Forwarded>)
    requires IsSplit(a, messages)
    ensures messages == [] <==> a == []
  {
    if a != [] {
      LastBatch(a, messages);
    }
  }

  // ---- Stars ----

  function Cost(messages: nat, price: nat): nat {
    messages * price
  }

  // What is paid in all for so many messages.
  function Paid(approved: nat, price: nat, messages: nat): nat {
    Min(approved, Cost(messages, price))
  }

  function Min(a: nat, b: nat): nat {
    if a < b then a else b
  }

  function Count(batches: seq<Batch>): nat {
    if batches == [] then 0 else Count(batches[..|batches| - 1]) + |batches[|batches| - 1].ids|
  }

  function Stars(batches: seq<Batch>): nat {
    if batches == [] then 0 else Stars(batches[..|batches| - 1]) + batches[|batches| - 1].stars
  }

  // A batch pays what the messages up to its end cost, as far as approved, beyond those before it.
  predicate PaidAt(batches: seq<Batch>, k: nat, approved: nat, price: nat)
    requires k < |batches|
  {
    Paid(approved, price, Count(batches[..k])) + batches[k].stars == Paid(approved, price, Count(batches[..k + 1]))
  }

  predicate PaidInTurn(batches: seq<Batch>, approved: nat, price: nat) {
    forall k :: 0 <= k < |batches| ==> PaidAt(batches, k, approved, price)
  }

  lemma PaidInPrefix(batches: seq<Batch>, n: nat, k: nat, approved: nat, price: nat)
    requires k < n <= |batches|
    ensures PaidAt(batches[..n], k, approved, price) <==> PaidAt(batches, k, approved, price)
  {
    assert batches[..n][..k] == batches[..k] && batches[..n][..k + 1] == batches[..k + 1];
  }

  lemma {:induction false} TotalStars(batches: seq<Batch>, approved: nat, price: nat)
    requires PaidInTurn(batches, approved, price)
    ensures Stars(batches) == Paid(approved, price, Count(batches))
  {
    if batches != [] {
      hide Paid;
      var last := |batches| - 1;
      assert PaidAt(batches, last, approved, price);
      assert batches[..|batches|] == batches;
      forall k | 0 <= k < last ensures PaidAt(batches[..last], k, approved, price) {
        PaidInPrefix(batches, last, k, approved, price);
      }
      TotalStars(batches[..last], approved, price);
    }
  }

  lemma {:induction false} CountIsMessages(batches: seq<Batch>)
    requires WellFormed(batches)
    ensures Count(batches) == |Messages(batches)|
  {
    if batches != [] {
      CountIsMessages(batches[..|batches| - 1]);
    }
  }

  lemma CostAdds(m: nat, n: nat, price: nat)
    ensures Cost(m + n, price) == Cost(m, price) + Cost(n, price)
  {
  }

  // Paying from what is left is paying in turn.
  lemma OneMorePaid(batches: seq<Batch>, b: Batch, approved: nat, price: nat)
    requires PaidInTurn(batches, approved, price)
    requires b.stars == Min(approved - Paid(approved, price, Count(batches)), Cost(|b.ids|, price))
    ensures PaidInTurn(batches + [b], approved, price)
    ensures Paid(approved, price, Count(batches + [b])) == Paid(approved, price, Count(batches)) + b.stars
  {
    hide PaidInTurn, PaidAt, Cost;
    var now := batches + [b];
    var n := |batches|;
    assert now[..n] == batches && now[..n + 1] == now;
    assert Count(now) == Count(batches) + |b.ids|;
    CostAdds(Count(batches), |b.ids|, price);
    LastPaid(batches, b, approved, price);
  }

  lemma LastPaid(batches: seq<Batch>, b: Batch, approved: nat, price: nat)
    requires PaidInTurn(batches, approved, price)
    requires Paid(approved, price, Count(batches)) + b.stars == Paid(approved, price, Count(batches + [b]))
    ensures PaidInTurn(batches + [b], approved, price)
  {
    hide Paid;
    var now := batches + [b];
    var n := |batches|;
    assert now[..n] == batches && now[..n + 1] == now;
    forall k | 0 <= k < |now| ensures PaidAt(now, k, approved, price) {
      if k < n {
        PaidInPrefix(now, n, k, approved, price);
      }
    }
  }

  // A document sent pays for one message from its own copy of what is approved.
  datatype SentDocument = SentDocument(document: Document, stars: nat)

  function SentDocuments(documents: seq<Document>, stars: nat): seq<SentDocument> {
    if documents == [] then []
    else SentDocuments(documents[..|documents| - 1], stars) + [SentDocument(documents[|documents| - 1], stars)]
  }

  function DocumentStars(sent: seq<SentDocument>): nat {
    if sent == [] then 0 else DocumentStars(sent[..|sent| - 1]) + sent[|sent| - 1].stars
  }

  lemma OneMoreDocument(documents: seq<Document>, d: Document, stars: nat)
    ensures SentDocuments(documents + [d], stars) == SentDocuments(documents, stars) + [SentDocument(d, stars)]
  {
    assert (documents + [d])[..|documents|] == documents;
  }

  lemma NothingSent(stars: nat)
    ensures Others([]) == [] && Music([]) == [] && SentDocuments([], stars) == []
  {
  }

  lemma {:induction false} DocumentsPay(documents: seq<Document>, stars: nat)
    ensures DocumentStars(SentDocuments(documents, stars)) == Cost(|documents|, stars)
  {
    if documents != [] {
      var n := |documents| - 1;
      DocumentsPay(documents[..n], stars);
      assert SentDocuments(documents, stars)[..|SentDocuments(documents[..n], stars)|] == SentDocuments(documents[..n], stars);
      CostAdds(n, 1, stars);
    }
  }

  // Each document is sent at its place, for the same number of stars.
  lemma {:induction false} DocumentsAreSentInOrder(documents: seq<Document>, stars: nat, k: nat)
    requires k < |documents|
    ensures |SentDocuments(documents, stars)| == |documents|
    ensures SentDocuments(documents, stars)[k] == SentDocument(documents[k], stars)
  {
    var n := |documents| - 1;
    if k < n {
      DocumentsAreSentInOrder(documents[..n], stars, k);
    } else if n > 0 {
      DocumentsAreSentInOrder(documents[..n], stars, n - 1);
    }
  }

  // Each batch pays for its messages from what the batches before it have left.
  lemma BatchPays(batches: seq<Batch>, approved: nat, price: nat, k: nat)
    requires PaidInTurn(batches, approved, price) && k < |batches|
    ensures Stars(batches[..k]) <= approved
    ensures var left := approved - Stars(batches[..k]);
            var cost := |batches[k].ids| * price;
            batches[k].stars == if left < cost then left else cost
  {
    hide Cost;
    assert PaidAt(batches, k, approved, price);
    forall i | 0 <= i < k ensures PaidAt(batches[..k], i, approved, price) {
      PaidInPrefix(batches, k, i, approved, price);
    }
    TotalStars(batches[..k], approved, price);
    assert batches[..k + 1][..k] == batches[..k];
    CostAdds(Count(batches[..k]), |batches[k].ids|, price);
    CostIs(|batches[k].ids|, price);
  }

  lemma CostIs(n: nat, price: nat)
    ensures Cost(n, price) == n * price
  {
  }

  // What the whole call pays: every document for itself, and the batches in turn.
  function PaidByCall(documents: nat, others: nat, approved: nat, price: nat): nat {
    Cost(documents, Min(price, approved)) + Paid(approved, price, others)
  }

  // It stays within what was approved exactly when nothing is due, there are no documents, everything
  // together is covered, or a single document is all there is.
  lemma CallStaysWithinApprovalIff(documents: nat, others: nat, approved: nat, price: nat)
    ensures PaidByCall(documents, others, approved, price) <= approved
            <==> price == 0 || approved == 0 || documents == 0
                 || Cost(documents + others, price) <= approved || (documents == 1 && others == 0)
  {
    CostAdds(documents, others, price);
    CostOfNone(price);
    if price != 0 && approved != 0 && documents != 0 {
      CostOfSome(documents, Min(price, approved));
      CostOfSome(documents, price);
      if others != 0 {
        CostOfSome(others, price);
      }
    } else {
      NothingDue(documents, others, approved, price);
    }
  }

  // It does happen: a document and a message for one star each, or two documents, with one star approved.
  lemma CallPaysTooMuch()
    ensures PaidByCall(1, 1, 1, 1) == 2 && PaidByCall(2, 0, 1, 1) == 2
  {
  }

  lemma CostOfNone(price: nat)
    ensures Cost(0, price) == 0
  {
  }

  lemma CostOfSome(n: nat, price: nat)
    requires n > 0
    ensures Cost(n, price) >= price && (n == 1 ==> Cost(n, price) == price) && (n > 1 ==> Cost(n, price) >= 2 * price)
  {
    CostAdds(1, n - 1, price);
    if n > 1 {
      CostAdds(1, n - 2, price);
    }
  }

  lemma NothingDue(documents: nat, others: nat, approved: nat, price: nat)
    requires price == 0 || approved == 0 || documents == 0
    ensures PaidByCall(documents, others, approved, price) <= approved
  {
  }

  lemma OneMoreBatch(batches: seq<Batch>, b: Batch, messages: seq<Forwarded>)
    requires IsSplit(batches, messages) && |b.ids| == |b.randomIds| && b.ids != []
    requires batches != [] ==> batches[|batches| - 1].from != b.from
    ensures IsSplit(batches + [b], messages + MessagesOf(b))
  {
    assert (batches + [b])[..|batches|] == batches;
  }

  // The batches sent and what is accumulated for the next one forward these messages.
  ghost predicate Accumulated(batches: seq<Batch>, left: nat, messages: seq<Forwarded>, from: PeerId,
                              ids: seq<MsgId>, randomIds: seq<nat>, approved: nat, price: nat)
  {
    && |ids| == |randomIds|
    && (ids == [] ==> IsSplit(batches, messages) && (batches != [] ==> batches[|batches| - 1].from != from))
    && (ids != [] ==> IsSplit(batches + [Batch(from, ids, randomIds, 0)], messages))
    && PaidInTurn(batches, approved, price)
    && left == approved - Paid(approved, price, Count(batches))
  }

  lemma NothingAccumulated(messages: seq<Forwarded>, from: PeerId, approved: nat, price: nat)
    requires messages == []
    ensures Accumulated([], approved, messages, from, [], [], approved, price)
  {
  }

  lemma NothingSplit(messages: seq<Forwarded>, approved: nat, price: nat)
    requires messages == []
    ensures IsSplit([], messages) && PaidInTurn([], approved, price) && Paid(approved, price, 0) == 0
  {
  }

  lemma SplitIgnoresStars(batches: seq<Batch>, b: Batch, stars: nat, messages: seq<Forwarded>)
    requires IsSplit(batches + [b], messages)
    ensures IsSplit(batches + [b.(stars := stars)], messages)
  {
    var was, now := batches + [b], batches + [b.(stars := stars)];
    assert was[..|batches|] == batches == now[..|batches|];
    assert MessagesOf(b) == MessagesOf(b.(stars := stars));
    forall k | 0 <= k < |now| ensures now[k].ids == was[k].ids && now[k].from == was[k].from {
    }
  }

  // Sending leaves nothing accumulated.
  lemma BatchSent(batches: seq<Batch>, left: nat, messages: seq<Forwarded>, from: PeerId,
                  ids: seq<MsgId>, randomIds: seq<nat>, approved: nat, price: nat, newFrom: PeerId)
    requires Accumulated(batches, left, messages, from, ids, randomIds, approved, price) && ids != []
    requires from != newFrom
    ensures var stars := Min(left, Cost(|ids|, price));
            Accumulated(batches + [Batch(from, ids, randomIds, stars)], left - stars, messages, newFrom, [], [], approved, price)
  {
    var stars := Min(left, Cost(|ids|, price));
    SplitIgnoresStars(batches, Batch(from, ids, randomIds, 0), stars, messages);
    OneMorePaid(batches, Batch(from, ids, randomIds, stars), approved, price);
  }

  lemma AllSent(batches: seq<Batch>, left: nat, messages: seq<Forwarded>, from: PeerId,
                ids: seq<MsgId>, randomIds: seq<nat>, approved: nat, price: nat)
    requires Accumulated(batches, left, messages, from, ids, randomIds, approved, price) && ids != []
    ensures var stars := Min(left, Cost(|ids|, price));
            var now := batches + [Batch(from, ids, randomIds, stars)];
            && IsSplit(now, messages) && PaidInTurn(now, approved, price)
            && Stars(now) == Paid(approved, price, |messages|) == approved - (left - stars)
  {
    var stars := Min(left, Cost(|ids|, price));
    var now := batches + [Batch(from, ids, randomIds, stars)];
    SplitIgnoresStars(batches, Batch(from, ids, randomIds, 0), stars, messages);
    OneMorePaid(batches, Batch(from, ids, randomIds, stars), approved, price);
    TotalStars(now, approved, price);
    CountIsMessages(now);
  }

  lemma IdAccumulated(batches: seq<Batch>, left: nat, messages: seq<Forwarded>, from: PeerId,
                      ids: seq<MsgId>, randomIds: seq<nat>, approved: nat, price: nat, id: MsgId, random: nat)
    requires Accumulated(batches, left, messages, from, ids, randomIds, approved, price)
    ensures Accumulated(batches, left, messages + [Forwarded(from, id, random)], from, ids + [id], randomIds + [random],
                        approved, price)
  {
    hide PaidInTurn, Paid;
    var was, now := Batch(from, ids, randomIds, 0), Batch(from, ids + [id], randomIds + [random], 0);
    assert MessagesOf(now) == MessagesOf(was) + [Forwarded(from, id, random)];
    if ids == [] {
      assert messages + MessagesOf(now) == messages + [Forwarded(from, id, random)];
      OneMoreBatch(batches, now, messages);
    } else {
      LongerBatch(batches, was, now, messages, Forwarded(from, id, random));
    }
  }

  lemma LongerBatch(batches: seq<Batch>, was: Batch, now: Batch, messages: seq<Forwarded>, one: Forwarded)
    requires IsSplit(batches + [was], messages) && was.from == now.from && now.ids != []
    requires |now.ids| == |now.randomIds| && MessagesOf(now) == MessagesOf(was) + [one]
    ensures IsSplit(batches + [now], messages + [one])
  {
    var a, b := batches + [was], batches + [now];
    assert a[..|batches|] == batches == b[..|batches|];
    assert Messages(b) == messages + [one];
    forall k | 0 <= k < |b| ensures b[k].ids != [] && (k > 0 ==> b[k - 1].from != b[k].from) {
      assert a[k].ids != [] && a[k].from == b[k].from && (k > 0 ==> a[k - 1].from == b[k - 1].from);
    }
  }

  lemma OneMoreSource(items: seq<Item>, random: seq<nat>, k: nat)
    requires |items| == |random| && k < |items|
    ensures Sources(items[..k + 1], random[..k + 1])
            == Sources(items[..k], random[..k]) + [Forwarded(items[k].peer, items[k].id, random[k])]
  {
  }

  lemma SourcesCounted(items: seq<Item>, random: seq<nat>)
    requires |items| == |random|
    ensures |Sources(items, random)| == |items|
  {
  }

  // ---- The answers ----

  // The batches not answered, the callback's count of them and how often it was called.
  datatype State = State(waiting: set<nat>, requestsLeft: int, called: nat)

  datatype Event = Done(batch: nat) | Fail(batch: nat)

  function Indices(n: nat): (r: set<nat>)
    ensures |r| == n && forall k: nat :: k in r <==> k < n
  {
    if n == 0 then {}
    else
      var r := Indices(n - 1);
      assert n - 1 !in r;
      r + {n - 1}
  }

  lemma IndicesNext(n: nat)
    ensures Indices(n + 1) == Indices(n) + {n}
  {
  }

  function Start(batches: nat): State {
    State(Indices(batches), batches, if batches == 0 then 1 else 0)
  }

  predicate Possible(s: State, e: Event) {
    e.batch in s.waiting
  }

  function Step(s: State, e: Event): State {
    var t := s.(waiting := s.waiting - {e.batch});
    if e.Fail? then t
    else t.(requestsLeft := s.requestsLeft - 1, called := s.called + if s.requestsLeft == 1 then 1 else 0)
  }

  predicate PossibleRun(s: State, es: seq<Event>)
    decreases |es|
  {
    es == [] || (Possible(s, es[0]) && PossibleRun(Step(s, es[0]), es[1..]))
  }

  function Run(s: State, es: seq<Event>): State
    requires PossibleRun(s, es)
    decreases |es|
  {
    if es == [] then s else Run(Step(s, es[0]), es[1..])
  }

  // The batches that have failed are counted for ever.
  predicate Inv(s: State, failed: set<nat>) {
    && s.waiting !! failed
    && s.requestsLeft == |s.waiting| + |failed|
    && s.called == if s.requestsLeft == 0 then 1 else 0
  }

  function FailedAfter(failed: set<nat>, e: Event): set<nat> {
    if e.Fail? then failed + {e.batch} else failed
  }

  lemma StepKeepsInv(s: State, failed: set<nat>, e: Event)
    requires Inv(s, failed) && Possible(s, e)
    ensures Inv(Step(s, e), FailedAfter(failed, e))
  {
    assert s.waiting == s.waiting - {e.batch} + {e.batch};
    assert s.requestsLeft > 0;
  }

  lemma {:induction false} AnswersWereWaitedFor(s: State, es: seq<Event>, e: Event)
    requires PossibleRun(s, es) && e in es
    ensures e.batch in s.waiting
    decreases |es|
  {
    if e != es[0] {
      AnswersWereWaitedFor(Step(s, es[0]), es[1..], e);
    }
  }

  lemma {:induction false} RunIs(s: State, failed: set<nat>, es: seq<Event>)
    requires Inv(s, failed) && PossibleRun(s, es)
    ensures var t := Run(s, es);
            && t.called == (if t.requestsLeft == 0 then 1 else 0)
            && (t.requestsLeft == 0 <==> failed == {} && forall k :: k in s.waiting ==> Done(k) in es)
    decreases |es|
  {
    if es == [] {
      assert s.requestsLeft == 0 ==> s.waiting == {} && failed == {};
      if s.waiting != {} {
        var k :| k in s.waiting;
        assert Done(k) !in es;
      }
    } else {
      var e := es[0];
      StepKeepsInv(s, failed, e);
      RunIs(Step(s, e), FailedAfter(failed, e), es[1..]);
      if e.Fail? && Done(e.batch) in es {
        AnswersWereWaitedFor(Step(s, e), es[1..], Done(e.batch));
      }
      assert e.Fail? ==> e.batch in FailedAfter(failed, e);
    }
  }

  // Whatever order the answers come in, success is reported once if every batch was sent well, and otherwise
  // not at all.
  lemma SuccessIsReportedOnceIffAllBatchesAreSent(batches: nat, es: seq<Event>)
    requires PossibleRun(Start(batches), es)
    ensures Run(Start(batches), es).called == if forall k :: 0 <= k < batches ==> Done(k) in es then 1 else 0
  {
    RunIs(Start(batches), {}, es);
  }

  // ---- The object ----

  // The requests of one forwardMessages call, and the callback its requests share.
  class Forwarding {
    var documents: seq<SentDocument>
    var batches: seq<Batch>
    var starsApproved: nat
    var waiting: set<nat>
    var requestsLeft: int
    var called: nat

    ghost function Abs(): State
      reads this
    {
      State(waiting, requestsLeft, called)
    }

    constructor (starsApproved: nat)
      ensures documents == [] && batches == [] && this.starsApproved == starsApproved
      ensures waiting == {} && requestsLeft == 0 && called == 0
    {
      documents, batches, this.starsApproved := [], [], starsApproved;
      waiting, requestsLeft, called := {}, 0, 0;
    }

    // Sends the saved music and leaves the other items.
    method SendSavedMusic(all: seq<Item>, price: nat) returns (items: seq<Item>)
      modifies this`documents
      ensures items == Others(all)
      ensures documents == old(documents) + SentDocuments(Music(all), Min(price, starsApproved))
    {
      hide SentDocuments, Others, Music;
      ghost var stars := Min(price, starsApproved);
      items := all;
      ghost var p := 0;
      var i := 0;
      NothingSent(stars);
      assert documents + [] == documents;
      while i < |items|
        invariant p <= |all| && i <= |items|
        invariant items[..i] == Others(all[..p]) && items[i..] == all[p..]
        invariant documents == old(documents) + SentDocuments(Music(all[..p]), stars)
        decreases |items| - i
      {
        OneMoreItem(all[..p], all[p]);
        ghost var music := Music(all[..p]);
        assert music + [] == music;
        assert all[..p + 1] == all[..p] + [all[p]];
        assert items[i..][0] == items[i] == all[p] && items[i..][1..] == items[i + 1..] == all[p + 1..];
        if items[i].savedMusic.Some? {
          OneMoreDocument(music, items[i].savedMusic.value, stars);
          documents := documents + [SentDocument(items[i].savedMusic.value, Min(price, starsApproved))];
          items := items[..i] + items[i + 1..];
        } else {
          i := i + 1;
        }
        p := p + 1;
      }
      assert all[..p] == all && items[..i] == items;
    }

    // The request for what was accumulated.
    method SendAccumulated(forwardFrom: PeerId, ids: seq<MsgId>, randomIds: seq<nat>, price: nat, shared: bool)
      requires waiting == Indices(|batches|)
      requires requestsLeft == if shared then |batches| else 0
      modifies this`batches, this`starsApproved, this`waiting, this`requestsLeft
      ensures var starsPaid := Min(old(starsApproved), Cost(|ids|, price));
              && batches == old(batches) + [Batch(forwardFrom, ids, randomIds, starsPaid)]
              && starsApproved == old(starsApproved) - starsPaid
      ensures waiting == Indices(|batches|)
      ensures requestsLeft == if shared then |batches| else 0
    {
      hide Cost, Indices;
      IndicesNext(|batches|);
      if shared {
        requestsLeft := requestsLeft + 1;
      }
      var starsPaid := Min(starsApproved, Cost(|ids|, price));
      if starsPaid != 0 {
        starsApproved := starsApproved - starsPaid;
      }
      waiting := waiting + {|batches|};
      batches := batches + [Batch(forwardFrom, ids, randomIds, starsPaid)];
    }

    // Forwards the items of the draft; price is in stars per message, shared says whether there is a callback.
    method ForwardMessages(all: seq<Item>, random: seq<nat>, price: nat, shared: bool)
      requires |random| == |Others(all)|
      requires documents == [] && batches == [] && waiting == {} && requestsLeft == 0 && called == 0
      modifies this
      ensures documents == SentDocuments(Music(all), Min(price, old(starsApproved)))
      ensures IsSplit(batches, Sources(Others(all), random))
      ensures PaidInTurn(batches, old(starsApproved), price)
      ensures Stars(batches) == Paid(old(starsApproved), price, |Others(all)|) == old(starsApproved) - starsApproved
      ensures DocumentStars(documents) + Stars(batches)
              == PaidByCall(|Music(all)|, |Others(all)|, old(starsApproved), price)
      ensures waiting == Start(|batches|).waiting
      ensures shared ==> Abs() == Start(|batches|)
      ensures !shared ==> called == 0
    {
      hide IsSplit, PaidInTurn, Paid, Sources, Cost, SentDocuments, DocumentStars;
      var items := SendSavedMusic(all, price);
      DocumentsPay(Music(all), Min(price, starsApproved));
      if items == [] {
        NothingSplit([], starsApproved, price);
        assert Sources(items, random) == [] by { SourcesCounted(items, random); }
        if shared {
          called := called + 1;
        }
        return;
      }
      SendBatches(items, random, price, shared);
      assert batches != [];
    }

    // The loop over the items left.
    method SendBatches(items: seq<Item>, random: seq<nat>, price: nat, shared: bool)
      requires items != [] && |random| == |items|
      requires batches == [] && waiting == {} && requestsLeft == 0
      modifies this`batches, this`starsApproved, this`waiting, this`requestsLeft
      ensures batches != [] && IsSplit(batches, Sources(items, random)) && PaidInTurn(batches, old(starsApproved), price)
      ensures Stars(batches) == Paid(old(starsApproved), price, |items|) == old(starsApproved) - starsApproved
      ensures waiting == Indices(|batches|) && requestsLeft == if shared then |batches| else 0
    {
      hide IsSplit, PaidInTurn, Accumulated, Paid, Sources, Cost, Stars, Min;
      ghost var approved := starsApproved;
      SourcesCounted(items[..0], random[..0]);
      NothingAccumulated(Sources(items[..0], random[..0]), items[0].peer, approved, price);
      var forwardFrom, ids, randomIds := items[0].peer, [], [];
      var k := 0;
      while k < |items|
        invariant k <= |items| && (k == 0 ==> forwardFrom == items[0].peer)
        invariant ids == [] <==> k == 0
        invariant Accumulated(batches, starsApproved, Sources(items[..k], random[..k]), forwardFrom, ids, randomIds,
                              approved, price)
        invariant waiting == Indices(|batches|) && requestsLeft == if shared then |batches| else 0
      {
        ghost var messages := Sources(items[..k], random[..k]);
        var newFrom := items[k].peer;
        if forwardFrom != newFrom {
          BatchSent(batches, starsApproved, messages, forwardFrom, ids, randomIds, approved, price, newFrom);
          SendAccumulated(forwardFrom, ids, randomIds, price, shared);
          ids, randomIds := [], [];
          forwardFrom := newFrom;
        }
        OneMoreSource(items, random, k);
        IdAccumulated(batches, starsApproved, messages, forwardFrom, ids, randomIds, approved, price, items[k].id, random[k]);
        ids := ids + [items[k].id];
        randomIds := randomIds + [random[k]];
        k := k + 1;
      }
      assert items[..k] == items && random[..k] == random;
      AllSent(batches, starsApproved, Sources(items, random), forwardFrom, ids, randomIds, approved, price);
      SourcesCounted(items, random);
      SendAccumulated(forwardFrom, ids, randomIds, price, shared);
    }

    method OnDone(batch: nat)
      requires batch in waiting
      modifies this`waiting, this`requestsLeft, this`called
      ensures Abs() == Step(old(Abs()), Done(batch))
    {
      waiting := waiting - {batch};
      requestsLeft := requestsLeft - 1;
      if requestsLeft == 0 {
        called := called + 1;
      }
    }

    method OnFail(batch: nat)
      requires batch in waiting
      modifies this`waiting
      ensures Abs() == Step(old(Abs()), Fail(batch))
    {
      waiting := waiting - {batch};
    }
  }
}
