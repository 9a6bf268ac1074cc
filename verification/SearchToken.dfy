// RequestToToken (api_messages_search.cpp): the string under which a search is cached.
module SearchToken {
  import opened Options

  // Data::ReactionId: an emoji (the paid reaction is "*"), or the id of a custom emoji document.
  datatype Tag = Emoji(text: string) | Custom(id: nat) {
    function EmojiText(): string {
      if Emoji? && text != "*" then text else ""
    }

    function CustomId(): nat {
      if Custom? then id else 0
    }
  }

  // MessagesSearch::Request; `from` is the id of the sender's peer.
  datatype Request = Request(query: string, from: Option<nat>, tags: seq<Tag>, topMsgId: nat)

  // QString::number
  function Number(n: nat): (s: string)
    ensures s != "" && forall c | c in s :: '0' <= c <= '9'
  {
    if n < 10 then [Digit(n)] else Number(n / 10) + [Digit(n % 10)]
  }

  function Digit(d: nat): (c: char)
    requires d < 10
    ensures '0' <= c <= '9'
  {
    '0' + d as char
  }

  function TagLine(tag: Tag): string {
    if tag.CustomId() != 0 then "custom" + Number(tag.CustomId()) else "emoji" + tag.EmojiText()
  }

  function TagLines(tags: seq<Tag>): (ls: seq<string>)
    ensures |ls| == |tags|
  {
    if tags == [] then [] else [TagLine(tags[0])] + TagLines(tags[1..])
  }

  // The lines after the query.
  function Lines(r: Request): seq<string> {
    (if r.from.Some? then [Number(r.from.value)] else []) + TagLines(r.tags)
  }

  function Glue(lines: seq<string>): string {
    if lines == [] then "" else "\n" + lines[0] + Glue(lines[1..])
  }

  function Token(r: Request): string {
    r.query + Glue(Lines(r))
  }

  lemma {:induction false} GlueOneMore(lines: seq<string>, line: string)
    ensures Glue(lines + [line]) == Glue(lines) + "\n" + line
  {
    if lines != [] {
      GlueOneMore(lines[1..], line);
      assert (lines + [line])[1..] == lines[1..] + [line];
    }
  }

  lemma {:induction false} TagLinesOneMore(tags: seq<Tag>, tag: Tag)
    ensures TagLines(tags + [tag]) == TagLines(tags) + [TagLine(tag)]
  {
    if tags != [] {
      TagLinesOneMore(tags[1..], tag);
      assert (tags + [tag])[1..] == tags[1..] + [tag];
    }
  }

  lemma NothingGlued()
    ensures Glue([]) == "" && TagLines([]) == []
  {
  }

  method RequestToToken(request: Request) returns (result: string)
    ensures result == Token(request)
  {
    hide Number, Glue, TagLines;
    result := request.query;
    ghost var lines: seq<string> := [];
    NothingGlued();
    if request.from.Some? {
      var number := Number(request.from.value);
      GlueOneMore([], number);
      result := result + "\n" + number;
      lines := [] + [number];
    }
    ghost var head := lines;
    for i := 0 to |request.tags|
      invariant lines == head + TagLines(request.tags[..i])
      invariant result == request.query + Glue(lines)
    {
      var tag := request.tags[i];
      TagLinesOneMore(request.tags[..i], tag);
      assert request.tags[..i + 1] == request.tags[..i] + [tag];
      GlueOneMore(lines, TagLine(tag));
      lines := lines + [TagLine(tag)];
      result := result + "\n";
      if tag.CustomId() != 0 {
        result := result + "custom" + Number(tag.CustomId());
      } else {
        result := result + "emoji" + tag.EmojiText();
      }
    }
    assert request.tags[..|request.tags|] == request.tags;
    assert lines == Lines(request);
  }

  // ---- Reading a token back ----

  predicate OneLine(s: string) {
    '\n' !in s
  }

  predicate OneLineEach(ls: seq<string>) {
    forall i :: 0 <= i < |ls| ==> OneLine(ls[i])
  }

  function Split(s: string): (ls: seq<string>)
    ensures ls != [] && OneLineEach(ls)
  {
    if s == "" then [""]
    else
      var rest := Split(s[1..]);
      if s[0] == '\n' then [""] + rest else rest[0 := [s[0]] + rest[0]]
  }

  lemma {:induction false} SplitFirst(line: string, s: string)
    requires OneLine(line)
    ensures Split(line + "\n" + s) == [line] + Split(s)
  {
    if line == "" {
      assert ("" + "\n" + s)[1..] == s;
    } else {
      SplitFirst(line[1..], s);
      assert (line + "\n" + s)[1..] == line[1..] + "\n" + s;
      assert [line[0]] + line[1..] == line;
      assert Split(line + "\n" + s) == ([line[1..]] + Split(s))[0 := line];
    }
  }

  lemma {:induction false} SplitOneLine(line: string)
    requires OneLine(line)
    ensures Split(line) == [line]
  {
    if line != "" {
      SplitOneLine(line[1..]);
      assert [line[0]] + line[1..] == line;
    }
  }

  lemma {:induction false} SplitGlue(first: string, lines: seq<string>)
    requires OneLine(first) && OneLineEach(lines)
    ensures Split(first + Glue(lines)) == [first] + lines
    decreases lines
  {
    if lines == [] {
      SplitOneLine(first);
      assert first + "" == first;
    } else {
      SplitGlue(lines[0], lines[1..]);
      SplitFirst(first, lines[0] + Glue(lines[1..]));
      assert first + Glue(lines) == first + "\n" + (lines[0] + Glue(lines[1..]));
    }
  }

  function ReadNumber(s: string): nat {
    if s == "" then 0
    else 10 * ReadNumber(s[..|s| - 1]) + if '0' <= s[|s| - 1] <= '9' then (s[|s| - 1] - '0') as nat else 0
  }

  lemma {:induction false} ReadNumberOfNumber(n: nat)
    ensures ReadNumber(Number(n)) == n
  {
    if n < 10 {
      assert ReadNumber("") == 0;
      assert Number(n)[..0] == "";
    } else {
      ReadNumberOfNumber(n / 10);
      assert Number(n)[..|Number(n)| - 1] == Number(n / 10);
    }
  }

  function ReadTag(line: string): Tag {
    if "custom" <= line then Custom(ReadNumber(line[6..]))
    else Emoji(if |line| < 5 then "" else line[5..])
  }

  function ReadTags(lines: seq<string>): (tags: seq<Tag>)
    ensures |tags| == |lines|
  {
    if lines == [] then [] else [ReadTag(lines[0])] + ReadTags(lines[1..])
  }

  // The request that a token is read back as, for a given topMsgId, which no token holds.
  function ReadToken(token: string, topMsgId: nat): Request {
    var lines := Split(token);
    var hasFrom := |lines| > 1 && lines[1] != "" && '0' <= lines[1][0] <= '9';
    Request(lines[0],
            if hasFrom then Some(ReadNumber(lines[1])) else None,
            ReadTags(if hasFrom then lines[2..] else lines[1..]),
            topMsgId)
  }

  // Tags whose line determines them.
  predicate PlainTag(tag: Tag) {
    match tag
    case Emoji(text) => OneLine(text) && text != "*"
    case Custom(id) => id != 0
  }

  predicate Plain(r: Request) {
    OneLine(r.query) && forall t | t in r.tags :: PlainTag(t)
  }

  predicate OneLineTag(tag: Tag) {
    tag.Emoji? ==> OneLine(tag.text)
  }

  lemma SuffixOneLine(s: string, k: nat)
    requires OneLine(s) && k <= |s|
    ensures OneLine(s[k..])
  {
  }

  lemma ReadTagOfLine(tag: Tag)
    requires OneLineTag(tag)
    ensures OneLine(TagLine(tag))
    ensures ReadTag(TagLine(tag)) == tag <==> PlainTag(tag)
  {
    var line := TagLine(tag);
    if tag.CustomId() != 0 {
      assert line[6..] == Number(tag.id);
      assert "custom" <= line;
      ReadNumberOfNumber(tag.id);
      assert forall i :: 6 <= i < |line| ==> line[i] in Number(tag.id);
    } else {
      assert line[0] == 'e' && line[5..] == tag.EmojiText();
      assert ReadTag(line) == Emoji(tag.EmojiText());
    }
  }

  lemma {:induction false} ReadTagsOfLines(tags: seq<Tag>)
    requires forall t | t in tags :: OneLineTag(t)
    ensures OneLineEach(TagLines(tags))
    ensures ReadTags(TagLines(tags)) == tags <==> forall t | t in tags :: PlainTag(t)
  {
    if tags != [] {
      ReadTagOfLine(tags[0]);
      ReadTagsOfLines(tags[1..]);
    }
  }

  lemma {:induction false} ReadTagsAreOneLine(lines: seq<string>)
    requires OneLineEach(lines)
    ensures forall t | t in ReadTags(lines) :: OneLineTag(t)
  {
    if lines != [] {
      if |lines[0]| >= 5 {
        SuffixOneLine(lines[0], 5);
      }
      ReadTagsAreOneLine(lines[1..]);
    }
  }

  lemma ReadLinesBack(r: Request)
    requires OneLine(r.query) && forall t | t in r.tags :: OneLineTag(t)
    ensures ReadToken(Token(r), r.topMsgId) == r.(tags := ReadTags(TagLines(r.tags)))
  {
    hide TagLine, ReadTag, Number, ReadNumber;
    ReadTagsOfLines(r.tags);
    SplitGlue(r.query, Lines(r));
    var lines := [r.query] + Lines(r);
    if r.from.Some? {
      ReadNumberOfNumber(r.from.value);
      assert lines[1][0] in Number(r.from.value);
      assert lines[2..] == TagLines(r.tags);
    } else {
      assert lines[1..] == TagLines(r.tags);
      if r.tags != [] {
        TagLineStart(r.tags[0]);
      }
    }
  }

  lemma TagLineStart(tag: Tag)
    ensures TagLine(tag) != "" && (TagLine(tag)[0] == 'c' || TagLine(tag)[0] == 'e')
  {
  }

  // A request is read back from its token exactly when its query and its emoji are single lines, no tag is
  // the paid reaction, and no custom tag has id 0.
  lemma TokenRoundTrip(r: Request)
    ensures ReadToken(Token(r), r.topMsgId) == r <==> Plain(r)
  {
    hide TagLine, ReadTag, Number, ReadNumber, Token;
    if OneLine(r.query) && forall t | t in r.tags :: OneLineTag(t) {
      ReadLinesBack(r);
      ReadTagsOfLines(r.tags);
    } else {
      var lines := Split(Token(r));
      ReadTagsAreOneLine(lines[1..]);
      if |lines| > 1 {
        ReadTagsAreOneLine(lines[2..]);
      }
    }
  }

  // So among such requests about the same topic the token determines the request.
  lemma TokenDetermines(r: Request, q: Request)
    requires Plain(r) && Plain(q) && r.topMsgId == q.topMsgId
    ensures Token(r) == Token(q) <==> r == q
  {
    TokenRoundTrip(r);
    TokenRoundTrip(q);
  }

  // ---- Which requests have the same token ----

  // All lines of a token, where the query and the emoji may have several.
  function AllLines(r: Request): seq<string> {
    Split(r.query) + SplitEach(Lines(r))
  }

  function SplitEach(lines: seq<string>): seq<string> {
    if lines == [] then [] else Split(lines[0]) + SplitEach(lines[1..])
  }

  lemma {:induction false} SplitJoined(a: string, b: string)
    ensures Split(a + "\n" + b) == Split(a) + Split(b)
  {
    if a == "" {
      assert ("" + "\n" + b)[1..] == b;
    } else {
      SplitJoined(a[1..], b);
      assert (a + "\n" + b)[1..] == a[1..] + "\n" + b;
    }
  }

  lemma {:induction false} SplitTellsString(a: string, b: string)
    ensures Split(a) == Split(b) <==> a == b
  {
    if a != "" && b != "" {
      SplitTellsString(a[1..], b[1..]);
      assert a == [a[0]] + a[1..] && b == [b[0]] + b[1..];
      FirstLine(a);
      FirstLine(b);
    } else if a != "" {
      FirstLine(a);
    } else if b != "" {
      FirstLine(b);
    }
  }

  // The first line and the rest of a string's lines tell its first character and the lines of the rest.
  lemma FirstLine(a: string)
    requires a != ""
    ensures if a[0] == '\n' then Split(a)[0] == "" && |Split(a)| > 1 && Split(a)[1..] == Split(a[1..])
            else Split(a)[0] != "" && Split(a)[0][0] == a[0] && Split(a[1..]) == Split(a)[0 := Split(a)[0][1..]]
  {
  }

  lemma {:induction false} SplitGlued(first: string, lines: seq<string>)
    ensures Split(first + Glue(lines)) == Split(first) + SplitEach(lines)
    decreases lines
  {
    hide Split;
    if lines == [] {
      assert first + "" == first;
    } else {
      SplitGlued(lines[0], lines[1..]);
      SplitJoined(first, lines[0] + Glue(lines[1..]));
      assert first + Glue(lines) == first + "\n" + (lines[0] + Glue(lines[1..]));
      assert Split(first) + (Split(lines[0]) + SplitEach(lines[1..]))
             == Split(first) + Split(lines[0]) + SplitEach(lines[1..]);
    }
  }

  // Any two requests have the same token exactly when they have the same lines.
  lemma TokensAgreeOnLines(r: Request, q: Request)
    ensures Token(r) == Token(q) <==> AllLines(r) == AllLines(q)
  {
    hide Split, Lines, Glue;
    SplitGlued(r.query, Lines(r));
    SplitGlued(q.query, Lines(q));
    SplitTellsString(Token(r), Token(q));
  }

  predicate OneLineRequest(r: Request) {
    OneLine(r.query) && forall t | t in r.tags :: OneLineTag(t)
  }

  predicate SameTag(a: Tag, b: Tag) {
    a.CustomId() == b.CustomId() && a.EmojiText() == b.EmojiText()
  }

  lemma SameTagLineIff(a: Tag, b: Tag)
    ensures TagLine(a) == TagLine(b) <==> SameTag(a, b)
  {
    ReadTagBack(a);
    ReadTagBack(b);
  }

  lemma ReadTagBack(tag: Tag)
    ensures ReadTag(TagLine(tag)) == if tag.CustomId() != 0 then tag else Emoji(tag.EmojiText())
  {
    var line := TagLine(tag);
    if tag.CustomId() != 0 {
      assert line[6..] == Number(tag.id) && "custom" <= line;
      ReadNumberOfNumber(tag.id);
    } else {
      assert line[0] == 'e' && line[5..] == tag.EmojiText();
    }
  }

  predicate SameTags(a: seq<Tag>, b: seq<Tag>) {
    |a| == |b| && forall i :: 0 <= i < |a| ==> SameTag(a[i], b[i])
  }

  lemma {:induction false} SameTagLinesIff(a: seq<Tag>, b: seq<Tag>)
    ensures TagLines(a) == TagLines(b) <==> SameTags(a, b)
  {
    hide TagLine, SameTag;
    if a != [] && b != [] {
      SameTagLineIff(a[0], b[0]);
      SameTagLinesIff(a[1..], b[1..]);
      assert TagLines(a)[0] == TagLine(a[0]) && TagLines(a)[1..] == TagLines(a[1..]);
      assert TagLines(b)[0] == TagLine(b[0]) && TagLines(b)[1..] == TagLines(b[1..]);
      if SameTags(a[1..], b[1..]) && SameTag(a[0], b[0]) {
        forall i | 0 <= i < |a| ensures SameTag(a[i], b[i]) {
          assert i > 0 ==> SameTag(a[1..][i - 1], b[1..][i - 1]);
        }
      }
    }
  }

  // With one-line texts, two requests have the same token exactly when they agree in query, sender and, tag
  // by tag, in custom id and emoji text.
  lemma TokensAgreeIff(r: Request, q: Request)
    requires OneLineRequest(r) && OneLineRequest(q)
    ensures Token(r) == Token(q) <==> r.query == q.query && r.from == q.from && SameTags(r.tags, q.tags)
  {
    hide TagLine, Number, Glue, SameTags, Split;
    ReadTagsOfLines(r.tags);
    ReadTagsOfLines(q.tags);
    SplitGlue(r.query, Lines(r));
    SplitGlue(q.query, Lines(q));
    SameTagLinesIff(r.tags, q.tags);
    LinesTell(r, q);
    var a, b := [r.query] + Lines(r), [q.query] + Lines(q);
    assert a[0] == r.query && a[1..] == Lines(r) && b[0] == q.query && b[1..] == Lines(q);
  }

  lemma LinesTell(r: Request, q: Request)
    ensures Lines(r) == Lines(q) <==> r.from == q.from && TagLines(r.tags) == TagLines(q.tags)
  {
    hide TagLine, Number;
    var a, b := TagLines(r.tags), TagLines(q.tags);
    if r.from.Some? {
      ReadNumberOfNumber(r.from.value);
      assert Lines(r)[0] == Number(r.from.value) && Lines(r)[1..] == a;
      assert Lines(r)[0][0] in Lines(r)[0];
    } else {
      assert Lines(r) == a;
    }
    if q.from.Some? {
      ReadNumberOfNumber(q.from.value);
      assert Lines(q)[0] == Number(q.from.value) && Lines(q)[1..] == b;
      assert Lines(q)[0][0] in Lines(q)[0];
    } else {
      assert Lines(q) == b;
    }
    if r.tags != [] {
      TagLineStart(r.tags[0]);
    }
    if q.tags != [] {
      TagLineStart(q.tags[0]);
    }
  }

  // The tags whose line no other tag has: all but the paid reaction, the empty emoji and custom id 0.
  predicate TellsItself(tag: Tag) {
    tag.CustomId() != 0 || tag.EmojiText() != ""
  }

  function Lookalike(tag: Tag): Tag {
    if tag.Custom? then Emoji("") else Custom(0)
  }

  // Among requests with one-line texts about one topic, the token tells the request exactly when every tag
  // tells itself.
  lemma TokenIsUniqueIff(r: Request)
    requires OneLineRequest(r)
    ensures (forall q :: OneLineRequest(q) && q.topMsgId == r.topMsgId && Token(q) == Token(r) ==> q == r)
            <==> forall t :: t in r.tags ==> TellsItself(t)
  {
    hide Token;
    if forall t :: t in r.tags ==> TellsItself(t) {
      forall q | OneLineRequest(q) && q.topMsgId == r.topMsgId && Token(q) == Token(r) ensures q == r {
        TokensAgreeIff(r, q);
        forall i | 0 <= i < |r.tags| ensures q.tags[i] == r.tags[i] {
          assert SameTag(r.tags[i], q.tags[i]) && TellsItself(r.tags[i]);
        }
      }
    } else {
      var i :| 0 <= i < |r.tags| && !TellsItself(r.tags[i]);
      var q := r.(tags := r.tags[i := Lookalike(r.tags[i])]);
      assert q.tags[i] != r.tags[i];
      TokensAgreeIff(r, q);
      assert OneLineRequest(q) && Token(q) == Token(r) && q != r;
    }
  }

  // It does happen: these three are different searches with one token.
  lemma LookalikesShareToken(query: string, from: Option<nat>, topMsgId: nat)
    ensures var r := Request(query, from, [Emoji("")], topMsgId);
            Token(r) == Token(r.(tags := [Custom(0)])) == Token(r.(tags := [Emoji("*")]))
  {
    var r := Request(query, from, [Emoji("")], topMsgId);
    assert TagLine(Emoji("")) == TagLine(Custom(0)) == TagLine(Emoji("*"));
    assert Lines(r) == Lines(r.(tags := [Custom(0)])) == Lines(r.(tags := [Emoji("*")]));
  }
}
