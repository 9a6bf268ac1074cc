// The first slice of a peer's own invite links (api_invite_links.cpp), whose one active permanent link,
// if there is one, is looked for only at the front.
module InviteLinks {
  import opened Options

  type Peer = nat

  // One invite link; `rest` stands for the fields no decision here depends on.
  datatype Link = Link(link: string, permanent: bool, revoked: bool, usage: int, rest: nat)

  datatype Links = Links(count: int, links: seq<Link>)

  predicate Active(link: Link) {
    link.permanent && !link.revoked
  }

  // At most one active permanent link, and it is the first.
  predicate FrontOnly(list: seq<Link>) {
    forall i :: 0 <= i < |list| && Active(list[i]) ==> i == 0
  }

  // ---- Looking a link up ----

  // lookupMyPermanent: only the front is looked at.
  function FrontPermanent(list: seq<Link>): Option<Link> {
    if list != [] && Active(list[0]) then Some(list[0]) else None
  }

  // The first position from which on the list has an active permanent link, or its length.
  function FirstActive(list: seq<Link>): (i: nat)
    ensures i <= |list| && (i < |list| ==> Active(list[i]))
    ensures forall j :: 0 <= j < i ==> !Active(list[j])
  {
    if list == [] || Active(list[0]) then 0 else 1 + FirstActive(list[1..])
  }

  function IndexOf(list: seq<Link>, link: string): (i: nat)
    ensures i <= |list| && (i < |list| ==> list[i].link == link)
    ensures forall j :: 0 <= j < i ==> list[j].link != link
  {
    if list == [] || list[0].link == link then 0 else 1 + IndexOf(list[1..], link)
  }

  // The front lookup is as good as a search of the whole list exactly for lists like that or without
  // any active permanent link but at the front.
  lemma LookupIsSearch(list: seq<Link>)
    requires FrontOnly(list)
    ensures var i := FirstActive(list);
            FrontPermanent(list) == (if i < |list| then Some(list[i]) else None)
            && forall j :: 0 <= j < |list| && Active(list[j]) ==> FrontPermanent(list) == Some(list[j])
  {
  }

  // ---- What each change makes of the list ----

  function NonActive(list: seq<Link>): seq<Link> {
    if list == [] then [] else (if Active(list[0]) then [] else [list[0]]) + NonActive(list[1..])
  }

  lemma {:induction false} NonActiveAreInactive(list: seq<Link>)
    ensures forall l :: l in NonActive(list) ==> !Active(l)
  {
    if list != [] {
      NonActiveAreInactive(list[1..]);
    }
  }

  function BroughtToFront(list: seq<Link>): seq<Link> {
    var i := FirstActive(list);
    if i == |list| || i == 0 then list else [list[i]] + list[..i] + list[i + 1..]
  }

  function Decreased(count: int): int {
    if count > 0 then count - 1 else count
  }

  // prependMyToFirstSlice
  function Prepended(was: Links, link: Link): Links {
    var hadPermanent := FrontPermanent(was.links).Some?;
    var t := if link.permanent && hadPermanent then Links(Decreased(was.count), was.links[1..]) else was;
    Links(t.count + 1,
          if hadPermanent && !link.permanent then t.links[..1] + [link] + t.links[1..] else [link] + t.links)
  }

  // The done handler of performEdit, for the link it was asked to edit.
  function Edited(was: Links, key: string, link: Link): Links {
    var j := IndexOf(was.links, key);
    if j == |was.links| then was
    else if link.revoked && !was.links[j].revoked then
      Links(Decreased(was.count), was.links[..j] + was.links[j + 1..])
    else was.(links := was.links[j := link])
  }

  // applyExternalUpdate
  function Updated(list: seq<Link>, updated: Link): (r: seq<Link>)
    ensures |r| == |list|
    ensures forall i :: 0 <= i < |list| ==> r[i] == if list[i].link == updated.link then updated else list[i]
  {
    if list == [] then []
    else [if list[0].link == updated.link then updated else list[0]] + Updated(list[1..], updated)
  }

  // setMyPermanent, for a permanent link
  function PermanentSet(was: Links, link: Link): Links {
    match FrontPermanent(was.links)
    case None => was.(links := [link] + was.links)
    case Some(permanent) =>
      if permanent.link == link.link then was.(links := was.links[0 := permanent.(usage := link.usage)])
      else Links(Decreased(was.count), [link] + was.links[1..])
  }

  // clearMyPermanent
  function PermanentCleared(was: Links): Links {
    if FrontPermanent(was.links).Some? then Links(Decreased(was.count), was.links[1..]) else was
  }

  // parseSlice: the server's links without the permanent one already at hand.
  function ParsedSlice(permanent: Option<Link>, links: seq<Link>): seq<Link> {
    if links == [] then []
    else (if permanent.Some? && links[0].link == permanent.value.link then [] else [links[0]])
         + ParsedSlice(permanent, links[1..])
  }

  // The done handler of requestMyLinks
  function Reloaded(was: Option<Links>, count: int, links: seq<Link>): Links {
    var permanent := if was.Some? then FrontPermanent(was.value.links) else None;
    var slice := ParsedSlice(permanent, links);
    if permanent.None? then Links(count, BroughtToFront(slice))
    else
      var list := was.value.links[..1] + NonActive(slice);
      Links(if count > |list| then count else |list|, list)
  }

  // ---- Exactly when a change keeps the list in order ----

  lemma PrependedKeepsFront(was: Links, link: Link)
    requires FrontOnly(was.links)
    ensures FrontOnly(Prepended(was, link).links)
  {
  }

  // An edit keeps it exactly unless it turns a link that is not at the front into an active permanent one.
  lemma EditedKeepsFrontIff(was: Links, key: string, link: Link)
    requires FrontOnly(was.links)
    ensures var j := IndexOf(was.links, key);
            FrontOnly(Edited(was, key, link).links) <==> !(Active(link) && 0 < j < |was.links|)
  {
    var j := IndexOf(was.links, key);
    var now := Edited(was, key, link).links;
    if Active(link) && 0 < j < |was.links| {
      assert now[j] == link;
    } else if j < |was.links| && link.revoked && !was.links[j].revoked {
      forall i | 0 <= i < |now| && Active(now[i]) ensures i == 0 {
        assert now[i] == was.links[if i < j then i else i + 1];
      }
    }
  }

  // What the server is trusted with: an edit changes neither `permanent` nor takes a revocation back.
  predicate HonestEdit(was: Link, now: Link) {
    now.permanent == was.permanent && (was.revoked ==> now.revoked)
  }

  lemma HonestEditKeepsFront(was: Links, key: string, link: Link)
    requires FrontOnly(was.links)
    requires var j := IndexOf(was.links, key); j < |was.links| ==> HonestEdit(was.links[j], link)
    ensures FrontOnly(Edited(was, key, link).links)
  {
    EditedKeepsFrontIff(was, key, link);
  }

  lemma UpdatedKeepsFrontIff(list: seq<Link>, updated: Link)
    requires FrontOnly(list)
    ensures FrontOnly(Updated(list, updated))
       <==> !(Active(updated) && exists i :: 0 < i < |list| && list[i].link == updated.link)
  {
    if i :| 0 < i < |list| && list[i].link == updated.link {
      assert Updated(list, updated)[i] == updated;
    }
  }

  lemma PermanentSetKeepsFront(was: Links, link: Link)
    requires FrontOnly(was.links)
    ensures FrontOnly(PermanentSet(was, link).links)
  {
  }

  lemma PermanentClearedKeepsFront(was: Links)
    requires FrontOnly(was.links)
    ensures FrontOnly(PermanentCleared(was).links)
    ensures FrontPermanent(PermanentCleared(was).links) == None
  {
  }

  function ActiveCount(list: seq<Link>): nat {
    if list == [] then 0 else (if Active(list[0]) then 1 else 0) + ActiveCount(list[1..])
  }

  lemma {:induction false} NoneActive(list: seq<Link>)
    ensures ActiveCount(list) == 0 <==> forall l :: l in list ==> !Active(l)
  {
    if list != [] {
      NoneActive(list[1..]);
    }
  }

  lemma {:induction false} ActiveCountAround(list: seq<Link>, i: nat)
    requires i < |list|
    ensures ActiveCount(list) == ActiveCount(list[..i] + list[i + 1..]) + if Active(list[i]) then 1 else 0
  {
    if i == 0 {
      assert list[..0] + list[1..] == list[1..];
    } else {
      ActiveCountAround(list[1..], i - 1);
      assert (list[..i] + list[i + 1..])[1..] == list[1..][..i - 1] + list[1..][i..];
    }
  }

  lemma FrontOnlyMeansRestInactive(first: Link, rest: seq<Link>)
    ensures FrontOnly([first] + rest) <==> ActiveCount(rest) == 0
  {
    NoneActive(rest);
    var list := [first] + rest;
    if FrontOnly(list) {
      forall l | l in rest ensures !Active(l) {
        var k :| 0 <= k < |rest| && rest[k] == l;
        assert list[k + 1] == l;
      }
    }
  }

  lemma BroughtToFrontIs(list: seq<Link>)
    ensures var i := FirstActive(list);
            BroughtToFront(list) == if i < |list| then [list[i]] + (list[..i] + list[i + 1..]) else list
  {
    hide FirstActive;
    var i := FirstActive(list);
    if 0 < i < |list| {
      JoinedEitherWay([list[i]], list[..i], list[i + 1..]);
    } else if i == 0 && list != [] {
      FrontAndRest(list);
    }
  }

  lemma NothingParsed(permanent: Option<Link>, list: seq<Link>)
    ensures list + ParsedSlice(permanent, []) == list
  {
  }

  lemma OneMoreParsed(permanent: Option<Link>, links: seq<Link>, i: nat, list: seq<Link>)
    requires i < |links|
    ensures var kept := if permanent.Some? && links[i].link == permanent.value.link then [] else [links[i]];
            list + ParsedSlice(permanent, links[i..]) == list + kept + ParsedSlice(permanent, links[i + 1..])
            && list + [] == list
  {
    assert links[i..][1..] == links[i + 1..] && links[i..][0] == links[i];
  }

  lemma JoinedEitherWay(a: seq<Link>, b: seq<Link>, c: seq<Link>)
    ensures a + b + c == a + (b + c)
  {
  }

  lemma FrontAndRest(list: seq<Link>)
    requires list != []
    ensures [list[0]] + (list[..0] + list[1..]) == list
  {
    assert list[..0] + list[1..] == list[1..];
  }

  // Bringing the first one to the front is enough exactly when there is at most one.
  lemma BroughtToFrontIff(list: seq<Link>)
    ensures FrontOnly(BroughtToFront(list)) <==> ActiveCount(list) <= 1
  {
    hide ActiveCount, FrontOnly, BroughtToFront, FirstActive;
    BroughtToFrontIs(list);
    var i := FirstActive(list);
    if i < |list| {
      ActiveCountAround(list, i);
      var rest := list[..i] + list[i + 1..];
      FrontOnlyMeansRestInactive(list[i], rest);
    } else {
      NoneActive(list);
      InactiveIsFrontOnly(list);
    }
  }

  lemma InactiveIsFrontOnly(list: seq<Link>)
    requires forall l :: l in list ==> !Active(l)
    ensures FrontOnly(list)
  {
  }

  // A reload keeps the list in order exactly when a permanent link was at hand already, or the server sends
  // at most one active permanent link.
  lemma ReloadedKeepsFrontIff(was: Option<Links>, count: int, links: seq<Link>)
    requires was.Some? ==> FrontOnly(was.value.links)
    ensures FrontOnly(Reloaded(was, count, links).links)
       <==> (was.Some? && FrontPermanent(was.value.links).Some?) || ActiveCount(links) <= 1
  {
    if was.Some? && FrontPermanent(was.value.links).Some? {
      var rest := NonActive(ParsedSlice(FrontPermanent(was.value.links), links));
      NonActiveAreInactive(ParsedSlice(FrontPermanent(was.value.links), links));
      NoneActive(rest);
      FrontOnlyMeansRestInactive(was.value.links[0], rest);
      assert Reloaded(was, count, links).links == [was.value.links[0]] + rest;
    } else {
      NothingAtHand(links);
      BroughtToFrontIff(links);
    }
  }

  lemma {:induction false} NothingAtHand(links: seq<Link>)
    ensures ParsedSlice(None, links) == links
  {
    if links != [] {
      NothingAtHand(links[1..]);
    }
  }

  // ---- Runs ----

  type Slices = map<Peer, Links>

  datatype Event =
    | Prepend(peer: Peer, link: Link)
    // an edit's result: the link as it is now, and the new link when the server replaced it
    | EditDone(peer: Peer, key: string, link: Link, newInvite: Option<Link>)
    | ExternalUpdate(peer: Peer, link: Link)
    | SetMyPermanent(peer: Peer, link: Link)
    | ClearMyPermanent(peer: Peer)
    | MyLinksDone(peer: Peer, count: int, links: seq<Link>)
    | Prune(peer: Peer)

  function SliceOf(slices: Slices, peer: Peer): Option<Links> {
    if peer in slices then Some(slices[peer]) else None
  }

  function LinksOf(slices: Slices, peer: Peer): Links {
    if peer in slices then slices[peer] else Links(0, [])
  }

  function Step(s: Slices, e: Event): Slices {
    match e
    case Prepend(peer, link) => s[peer := Prepended(LinksOf(s, peer), link)]
    case EditDone(peer, key, link, newInvite) =>
      var t := if peer in s then s[peer := Edited(s[peer], key, link)] else s;
      if newInvite.Some? then t[peer := Prepended(LinksOf(t, peer), newInvite.value)] else t
    case ExternalUpdate(peer, link) =>
      if peer in s then s[peer := s[peer].(links := Updated(s[peer].links, link))] else s
    case SetMyPermanent(peer, link) =>
      if link.permanent then s[peer := PermanentSet(LinksOf(s, peer), link)] else s
    case ClearMyPermanent(peer) => if peer in s then s[peer := PermanentCleared(s[peer])] else s
    case MyLinksDone(peer, count, links) => s[peer := Reloaded(SliceOf(s, peer), count, links)]
    case Prune(peer) => s - {peer}
  }

  // The server sends at most one active permanent link at a time, and what it sends about a known link
  // neither changes `permanent` nor takes a revocation back.
  predicate Honest(s: Slices, e: Event) {
    match e
    case EditDone(peer, key, link, _) =>
      peer in s ==>
        var j := IndexOf(s[peer].links, key);
        j < |s[peer].links| ==> HonestEdit(s[peer].links[j], link)
    case ExternalUpdate(peer, link) =>
      peer in s ==>
        forall i :: 0 <= i < |s[peer].links| && s[peer].links[i].link == link.link ==> HonestEdit(s[peer].links[i], link)
    case MyLinksDone(_, _, links) => ActiveCount(links) <= 1
    case _ => true
  }

  predicate HonestRun(s: Slices, es: seq<Event>)
    decreases |es|
  {
    es == [] || (Honest(s, es[0]) && HonestRun(Step(s, es[0]), es[1..]))
  }

  function Run(s: Slices, es: seq<Event>): Slices
    decreases |es|
  {
    if es == [] then s else Run(Step(s, es[0]), es[1..])
  }

  ghost predicate Inv(s: Slices) {
    forall peer :: peer in s ==> FrontOnly(s[peer].links)
  }

  lemma StepKeepsInv(s: Slices, e: Event)
    requires Inv(s) && Honest(s, e)
    ensures Inv(Step(s, e))
  {
    hide FrontOnly, Prepended, Edited, Updated, PermanentSet, PermanentCleared, Reloaded, HonestEdit;
    NothingIsFrontOnly();
    match e
    case Prepend(peer, link) => PrependedKeepsFront(LinksOf(s, peer), link);
    case EditDone(peer, key, link, newInvite) =>
      var t := if peer in s then s[peer := Edited(s[peer], key, link)] else s;
      if peer in s {
        HonestEditKeepsFront(s[peer], key, link);
      }
      if newInvite.Some? {
        PrependedKeepsFront(LinksOf(t, peer), newInvite.value);
      }
    case ExternalUpdate(peer, link) =>
      if peer in s {
        HonestUpdateKeepsFront(s[peer].links, link);
      }
    case SetMyPermanent(peer, link) => PermanentSetKeepsFront(LinksOf(s, peer), link);
    case ClearMyPermanent(peer) =>
      if peer in s {
        PermanentClearedKeepsFront(s[peer]);
      }
    case MyLinksDone(peer, count, links) => ReloadedKeepsFrontIff(SliceOf(s, peer), count, links);
    case Prune(peer) =>
  }

  lemma NothingIsFrontOnly()
    ensures FrontOnly([])
  {
  }

  lemma HonestUpdateKeepsFront(list: seq<Link>, updated: Link)
    requires FrontOnly(list)
    requires forall i :: 0 <= i < |list| && list[i].link == updated.link ==> HonestEdit(list[i], updated)
    ensures FrontOnly(Updated(list, updated))
  {
    UpdatedKeepsFrontIff(list, updated);
  }

  // Over every run with an honest server, each peer's slice has at most one active permanent link, at the
  // front, so that lookupMyPermanent finds it wherever a full search would.
  lemma {:induction false} PermanentStaysInFront(s: Slices, es: seq<Event>)
    requires Inv(s) && HonestRun(s, es)
    ensures Inv(Run(s, es))
    ensures forall peer, j :: peer in Run(s, es) && 0 <= j < |Run(s, es)[peer].links|
                              && Active(Run(s, es)[peer].links[j])
              ==> FrontPermanent(Run(s, es)[peer].links) == Some(Run(s, es)[peer].links[j])
    decreases |es|
  {
    if es != [] {
      hide Step, Honest, Inv;
      StepKeepsInv(s, es[0]);
      PermanentStaysInFront(Step(s, es[0]), es[1..]);
    }
  }

  // ---- What becomes of the other links ----

  // The link at the front is permanent and not revoked.
  predicate HasPermanent(s: Slices, peer: Peer) {
    peer in s && s[peer].links != [] && s[peer].links[0].permanent && !s[peer].links[0].revoked
  }

  // The list of a peer before a step, and without its permanent front.
  function OldList(s: Slices, peer: Peer): seq<Link> {
    if peer in s then s[peer].links else []
  }

  function OldOthers(s: Slices, peer: Peer): seq<Link> {
    if HasPermanent(s, peer) then s[peer].links[1..] else OldList(s, peer)
  }

  function OldCount(s: Slices, peer: Peer): int {
    if peer in s then s[peer].count else 0
  }

  // One less, but never below zero.
  function OneLess(count: int): int {
    if count <= 0 then count else count - 1
  }

  // A step for one peer leaves the others alone.
  lemma OtherPeersStay(s: Slices, e: Event, other: Peer)
    requires other != e.peer
    ensures other in Step(s, e) <==> other in s
    ensures other in s ==> Step(s, e)[other] == s[other]
  {
  }

  // A new link goes to the front, behind the permanent one, or in its place.
  lemma PrependedLink(s: Slices, peer: Peer, link: Link)
    ensures var t := Step(s, Prepend(peer, link));
            && peer in t
            && t[peer].links == (if HasPermanent(s, peer) && !link.permanent then [s[peer].links[0], link] else [link])
                                + OldOthers(s, peer)
            && t[peer].count == 1 + if HasPermanent(s, peer) && link.permanent then OneLess(OldCount(s, peer))
                                    else OldCount(s, peer)
  {
  }

  // The permanent link goes to the front, before all others; if it is there already, its usage changes.
  lemma SetPermanentLink(s: Slices, peer: Peer, link: Link)
    ensures var t := Step(s, SetMyPermanent(peer, link));
            if !link.permanent then t == s
            else
              && peer in t
              && if HasPermanent(s, peer) && s[peer].links[0].link == link.link then
                   t[peer].links == [s[peer].links[0].(usage := link.usage)] + OldOthers(s, peer)
                   && t[peer].count == OldCount(s, peer)
                 else
                   t[peer].links == [link] + OldOthers(s, peer)
                   && t[peer].count == if HasPermanent(s, peer) then OneLess(OldCount(s, peer)) else OldCount(s, peer)
  {
  }

  // Clearing takes the permanent link out and no other.
  lemma ClearedLink(s: Slices, peer: Peer)
    ensures var t := Step(s, ClearMyPermanent(peer));
            if HasPermanent(s, peer) then
              t == s[peer := Links(OneLess(OldCount(s, peer)), OldOthers(s, peer))]
            else t == s
  {
  }

  // The first link of the name is erased when it is now revoked and was not, and changed otherwise.
  lemma EditedLink(s: Slices, peer: Peer, key: string, link: Link, j: nat)
    requires peer in s && j < |s[peer].links| && s[peer].links[j].link == key
    requires forall i :: 0 <= i < j ==> s[peer].links[i].link != key
    ensures var t := Step(s, EditDone(peer, key, link, None));
            var list := s[peer].links;
            && peer in t
            && if link.revoked && !list[j].revoked then
                 t[peer] == Links(OneLess(s[peer].count), list[..j] + list[j + 1..])
               else t[peer] == Links(s[peer].count, list[..j] + [link] + list[j + 1..])
  {
    IndexOfIs(s[peer].links, key, j);
    assert s[peer].links[j := link] == s[peer].links[..j] + [link] + s[peer].links[j + 1..];
  }

  // An edit of a link that is not in the list changes nothing; one that the server answers with a new link
  // prepends that.
  lemma EditedElsewhere(s: Slices, peer: Peer, key: string, link: Link, newInvite: Link)
    ensures (forall l :: l in OldList(s, peer) ==> l.link != key) ==> Step(s, EditDone(peer, key, link, None)) == s
    ensures Step(s, EditDone(peer, key, link, Some(newInvite)))
            == Step(Step(s, EditDone(peer, key, link, None)), Prepend(peer, newInvite))
  {
    if peer in s && forall l :: l in OldList(s, peer) ==> l.link != key {
      IndexOfIs(s[peer].links, key, |s[peer].links|);
    }
  }

  // Every entry of an updated link is changed in its place.
  lemma UpdatedLink(s: Slices, peer: Peer, updated: Link)
    ensures var t := Step(s, ExternalUpdate(peer, updated));
            if peer in s then
              && peer in t && t[peer].count == s[peer].count && |t[peer].links| == |s[peer].links|
              && forall i :: 0 <= i < |s[peer].links| ==>
                   t[peer].links[i] == if s[peer].links[i].link == updated.link then updated else s[peer].links[i]
            else t == s
  {
  }

  // A reload that keeps the permanent link at hand puts the server's links behind it, in order, without that
  // link and without active permanent ones.
  lemma ReloadedBehindPermanent(s: Slices, peer: Peer, count: int, links: seq<Link>, link: Link)
    requires HasPermanent(s, peer)
    ensures Step(s, MyLinksDone(peer, count, []))[peer].links == [s[peer].links[0]]
    ensures var front := s[peer].links[0];
            var kept := if link.link == front.link || (link.permanent && !link.revoked) then [] else [link];
            Step(s, MyLinksDone(peer, count, links + [link]))[peer].links
            == Step(s, MyLinksDone(peer, count, links))[peer].links + kept
    ensures var t := Step(s, MyLinksDone(peer, count, links));
            t[peer].count == if count > |t[peer].links| then count else |t[peer].links|
  {
    hide NonActive, ParsedSlice;
    var front := Some(s[peer].links[0]);
    assert s[peer].links[..1] == [front.value];
    NothingParsedOrActive(front);
    ParsedOneMore(front, links, link);
    NonActiveOneMore(ParsedSlice(front, links), link);
    assert NonActive(ParsedSlice(front, links)) + [] == NonActive(ParsedSlice(front, links));
    assert ParsedSlice(front, links) + [] == ParsedSlice(front, links);
  }

  lemma NothingParsedOrActive(permanent: Option<Link>)
    ensures ParsedSlice(permanent, []) == [] && NonActive([]) == []
  {
  }

  lemma {:induction false} ParsedOneMore(permanent: Option<Link>, links: seq<Link>, link: Link)
    ensures ParsedSlice(permanent, links + [link])
            == ParsedSlice(permanent, links)
               + if permanent.Some? && link.link == permanent.value.link then [] else [link]
  {
    if links != [] {
      assert (links + [link])[1..] == links[1..] + [link];
      ParsedOneMore(permanent, links[1..], link);
    } else {
      assert links + [link] == [link] && [link][1..] == [];
    }
  }

  lemma {:induction false} NonActiveOneMore(links: seq<Link>, link: Link)
    ensures NonActive(links + [link]) == NonActive(links) + if link.permanent && !link.revoked then [] else [link]
  {
    if links != [] {
      assert (links + [link])[1..] == links[1..] + [link];
      NonActiveOneMore(links[1..], link);
    } else {
      assert links + [link] == [link] && [link][1..] == [];
    }
  }

  // Any other reload takes the server's links, with the first active permanent one moved to the front.
  lemma ReloadedAlone(s: Slices, peer: Peer, count: int, links: seq<Link>, j: nat)
    requires !HasPermanent(s, peer) && j <= |links|
    requires forall i :: 0 <= i < j ==> !(links[i].permanent && !links[i].revoked)
    requires j < |links| ==> links[j].permanent && !links[j].revoked
    ensures var t := Step(s, MyLinksDone(peer, count, links));
            && peer in t && t[peer].count == count
            && t[peer].links == if j < |links| then [links[j]] + links[..j] + links[j + 1..] else links
  {
    hide ParsedSlice, FirstActive;
    NothingAtHand(links);
    BroughtToFrontIs(links);
    var i := FirstActive(links);
    assert i == j;
    if j < |links| {
      JoinedEitherWay([links[j]], links[..j], links[j + 1..]);
    }
  }

  // ---- A server that is not like that ----

  const PLAIN_LINK := Link("a", false, false, 0, 0)
  const OTHER_LINK := Link("b", false, false, 0, 0)

  function ActiveNow(link: Link): Link {
    link.(permanent := true)
  }

  lemma TwoLinks(peer: Peer)
    ensures Run(map[], [Prepend(peer, PLAIN_LINK), Prepend(peer, OTHER_LINK)])
            == map[peer := Links(2, [OTHER_LINK, PLAIN_LINK])]
  {
    var e, f := Prepend(peer, PLAIN_LINK), Prepend(peer, OTHER_LINK);
    var s := Step(map[], e);
    assert [PLAIN_LINK] + [] == [PLAIN_LINK] && [OTHER_LINK] + [PLAIN_LINK] == [OTHER_LINK, PLAIN_LINK];
    assert Prepended(Links(0, []), PLAIN_LINK) == Links(1, [PLAIN_LINK]);
    assert s == map[peer := Links(1, [PLAIN_LINK])];
    assert Prepended(Links(1, [PLAIN_LINK]), OTHER_LINK) == Links(2, [OTHER_LINK, PLAIN_LINK]);
    assert [e, f][1..] == [f] && [f][1..] == [];
    assert Run(s, [f]) == Step(s, f) == map[peer := Links(2, [OTHER_LINK, PLAIN_LINK])];
  }

  lemma {:induction false} RunOneMore(s: Slices, es: seq<Event>, e: Event)
    ensures Run(s, es + [e]) == Step(Run(s, es), e)
    decreases |es|
  {
    hide Step;
    if es == [] {
      assert (es + [e])[1..] == [];
    } else {
      assert (es + [e])[1..] == es[1..] + [e];
      RunOneMore(Step(s, es[0]), es[1..], e);
    }
  }

  // An edit, or an external update, makes the second of two links the active permanent one: the lookup
  // does not find it.
  lemma ChangedLinkIsNotFound(peer: Peer)
    ensures var es := [Prepend(peer, PLAIN_LINK), Prepend(peer, OTHER_LINK)];
            var now := map[peer := Links(2, [OTHER_LINK, ActiveNow(PLAIN_LINK)])];
            && Run(map[], es + [EditDone(peer, "a", ActiveNow(PLAIN_LINK), None)]) == now
            && Run(map[], es + [ExternalUpdate(peer, ActiveNow(PLAIN_LINK))]) == now
            && !FrontOnly(now[peer].links) && FrontPermanent(now[peer].links) == None
  {
    var es := [Prepend(peer, PLAIN_LINK), Prepend(peer, OTHER_LINK)];
    var list := [OTHER_LINK, PLAIN_LINK];
    TwoLinks(peer);
    RunOneMore(map[], es, EditDone(peer, "a", ActiveNow(PLAIN_LINK), None));
    RunOneMore(map[], es, ExternalUpdate(peer, ActiveNow(PLAIN_LINK)));
    IndexOfIs(list, "a", 1);
    assert list[1 := ActiveNow(PLAIN_LINK)] == [OTHER_LINK, ActiveNow(PLAIN_LINK)];
    assert Updated(list, ActiveNow(PLAIN_LINK)) == [OTHER_LINK, ActiveNow(PLAIN_LINK)];
    assert Active([OTHER_LINK, ActiveNow(PLAIN_LINK)][1]);
  }

  // A reload brings two active permanent links: the second one is not found.
  lemma SecondPermanentIsNotFound(peer: Peer)
    ensures var links := [ActiveNow(PLAIN_LINK), ActiveNow(OTHER_LINK)];
            Run(map[], [MyLinksDone(peer, 2, links)]) == map[peer := Links(2, links)] && !FrontOnly(links)
  {
    var links := [ActiveNow(PLAIN_LINK), ActiveNow(OTHER_LINK)];
    var e := MyLinksDone(peer, 2, links);
    NothingAtHand(links);
    BroughtToFrontIs(links);
    assert FirstActive(links) == 0;
    assert [links[0]] + (links[..0] + links[1..]) == links;
    assert [e][1..] == [] && Run(map[], [e]) == Step(map[], e);
    assert Active(links[1]);
  }

  // ---- The object ----

  method BringPermanentToFront(list: seq<Link>) returns (r: seq<Link>)
    ensures r == BroughtToFront(list)
  {
    var i := 0;
    while i < |list| && !Active(list[i])
      invariant i <= |list| && forall j :: 0 <= j < i ==> !Active(list[j])
    {
      i := i + 1;
    }
    FirstActiveIs(list, i);
    r := list;
    if i != |list| && i != 0 {
      r := [list[i]] + list[..i] + list[i + 1..];
    }
  }

  lemma FirstActiveIs(list: seq<Link>, i: nat)
    requires i <= |list| && (i < |list| ==> Active(list[i])) && forall j :: 0 <= j < i ==> !Active(list[j])
    ensures FirstActive(list) == i
  {
  }

  method RemovePermanent(list: seq<Link>) returns (r: seq<Link>)
    ensures r == NonActive(list)
  {
    hide Active;
    r := [];
    assert list[0..] == list;
    for i := 0 to |list|
      invariant r + NonActive(list[i..]) == NonActive(list)
    {
      assert list[i..][1..] == list[i + 1..];
      if !Active(list[i]) {
        r := r + [list[i]];
      }
    }
  }

  class InviteLinks {
    var firstSlices: Slices

    constructor ()
      ensures firstSlices == map[]
    {
      firstSlices := map[];
    }

    method LookupMyPermanent(peer: Peer) returns (link: Option<Link>)
      ensures link == if peer in firstSlices then FrontPermanent(firstSlices[peer].links) else None
    {
      link := None;
      if peer in firstSlices {
        var list := firstSlices[peer].links;
        if list != [] && list[0].permanent && !list[0].revoked {
          link := Some(list[0]);
        }
      }
    }

    method PrependMyToFirstSlice(peer: Peer, link: Link)
      modifies this
      ensures firstSlices == Step(old(firstSlices), Prepend(peer, link))
    {
      if peer !in firstSlices {
        firstSlices := firstSlices[peer := Links(0, [])];
      }
      var permanent := LookupMyPermanent(peer);
      var Links(count, list) := firstSlices[peer];
      if link.permanent && permanent.Some? {
        list := list[1..];
        if count > 0 {
          count := count - 1;
        }
      }
      count := count + 1;
      if permanent.Some? && !link.permanent {
        list := list[..1] + [link] + list[1..];
      } else {
        list := [link] + list;
      }
      firstSlices := firstSlices[peer := Links(count, list)];
    }

    // The done handler of performEdit; without a link, the result was not one.
    method OnEditDone(peer: Peer, key: string, result: Option<Link>, newInvite: Option<Link>)
      modifies this
      ensures firstSlices == if result.None? then old(firstSlices)
                             else Step(old(firstSlices), EditDone(peer, key, result.value, newInvite))
    {
      if result.None? {
        return;
      }
      var link := result.value;
      if peer in firstSlices {
        var Links(count, list) := firstSlices[peer];
        var j := 0;
        while j < |list| && list[j].link != key
          invariant j <= |list| && forall i :: 0 <= i < j ==> list[i].link != key
        {
          j := j + 1;
        }
        IndexOfIs(list, key, j);
        if j != |list| {
          if link.revoked && !list[j].revoked {
            list := list[..j] + list[j + 1..];
            if count > 0 {
              count := count - 1;
            }
          } else {
            list := list[j := link];
          }
        }
        firstSlices := firstSlices[peer := Links(count, list)];
      }
      if newInvite.Some? {
        PrependMyToFirstSlice(peer, newInvite.value);
      }
    }

    method ApplyExternalUpdate(peer: Peer, updated: Link)
      modifies this
      ensures firstSlices == Step(old(firstSlices), ExternalUpdate(peer, updated))
    {
      if peer in firstSlices {
        var list := firstSlices[peer].links;
        ghost var was := list;
        for i := 0 to |list|
          invariant |list| == |was| && list[..i] == Updated(was, updated)[..i] && list[i..] == was[i..]
        {
          if list[i].link == updated.link {
            list := list[i := updated];
          }
        }
        assert list == Updated(was, updated);
        firstSlices := firstSlices[peer := firstSlices[peer].(links := list)];
      }
    }

    method SetMyPermanent(peer: Peer, link: Link)
      modifies this
      ensures firstSlices == Step(old(firstSlices), Event.SetMyPermanent(peer, link))
    {
      if !link.permanent {
        return;
      }
      if peer !in firstSlices {
        firstSlices := firstSlices[peer := Links(0, [])];
      }
      var permanent := LookupMyPermanent(peer);
      var Links(count, list) := firstSlices[peer];
      if permanent.Some? {
        if permanent.value.link == link.link {
          assert list[0 := list[0]] == list;
          if permanent.value.usage != link.usage {
            list := list[0 := permanent.value.(usage := link.usage)];
            firstSlices := firstSlices[peer := Links(count, list)];
          }
          return;
        }
        list := list[1..];
        if count > 0 {
          count := count - 1;
        }
      }
      list := [link] + list;
      firstSlices := firstSlices[peer := Links(count, list)];
    }

    method ClearMyPermanent(peer: Peer)
      modifies this
      ensures firstSlices == Step(old(firstSlices), Event.ClearMyPermanent(peer))
    {
      if peer !in firstSlices {
        return;
      }
      var permanent := LookupMyPermanent(peer);
      if permanent.None? {
        return;
      }
      var Links(count, list) := firstSlices[peer];
      if count > 0 {
        count := count - 1;
      }
      firstSlices := firstSlices[peer := Links(count, list[1..])];
    }

    method ParseSlice(peer: Peer, invites: seq<Link>) returns (list: seq<Link>)
      ensures list == ParsedSlice(if peer in firstSlices then FrontPermanent(firstSlices[peer].links) else None, invites)
    {
      var permanent := LookupMyPermanent(peer);
      hide ParsedSlice;
      list := [];
      assert invites[0..] == invites;
      assert [] + ParsedSlice(permanent, invites) == ParsedSlice(permanent, invites);
      for i := 0 to |invites|
        invariant list + ParsedSlice(permanent, invites[i..]) == ParsedSlice(permanent, invites)
      {
        OneMoreParsed(permanent, invites, i, list);
        if permanent.None? || invites[i].link != permanent.value.link {
          list := list + [invites[i]];
        }
      }
      NothingParsed(permanent, list);
      assert invites[|invites|..] == [];
    }

    // The done handler of requestMyLinks
    method OnMyLinksDone(peer: Peer, sliceCount: int, invites: seq<Link>)
      modifies this
      ensures firstSlices == Step(old(firstSlices), MyLinksDone(peer, sliceCount, invites))
    {
      var slice := ParseSlice(peer, invites);
      var permanent := LookupMyPermanent(peer);
      if permanent.None? {
        slice := BringPermanentToFront(slice);
        firstSlices := firstSlices[peer := Links(sliceCount, slice)];
      } else {
        slice := RemovePermanent(slice);
        var existing := firstSlices[peer].links;
        existing := existing[..1];
        existing := existing + slice;
        var count := if sliceCount > |existing| then sliceCount else |existing|;
        firstSlices := firstSlices[peer := Links(count, existing)];
      }
    }

    // An approved request through an unknown link drops the peer's slice.
    method PruneSlice(peer: Peer)
      modifies this
      ensures firstSlices == Step(old(firstSlices), Prune(peer))
    {
      firstSlices := firstSlices - {peer};
    }
  }

  lemma IndexOfIs(list: seq<Link>, link: string, i: nat)
    requires i <= |list| && (i < |list| ==> list[i].link == link) && forall j :: 0 <= j < i ==> list[j].link != link
    ensures IndexOf(list, link) == i
  {
  }
}
