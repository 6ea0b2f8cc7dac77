/** The Instagram DM payload (`instagramDmMessage`, apps/api/src/automation-providers.ts:117-161). */
module DmMessage {
  import opened Wrappers

  datatype Button =
    | QuickReply(title: string, payload: string)
    | Link(title: string, url: string)

  datatype TemplateButton =
    | WebUrl(title: string, url: string)
    | Postback(title: string, payload: string)

  datatype Message =
    | Text(text: string)
    | TextWithReplies(text: string, replies: seq<Button>)
    | Template(text: string, buttons: seq<TemplateButton>)

  function QuickReplies(buttons: seq<Button>): seq<Button> {
    if buttons == [] then []
    else if buttons[0].QuickReply? then [buttons[0]] + QuickReplies(buttons[1..])
    else QuickReplies(buttons[1..])
  }

  function Links(buttons: seq<Button>): seq<Button> {
    if buttons == [] then []
    else if buttons[0].Link? then [buttons[0]] + Links(buttons[1..])
    else Links(buttons[1..])
  }

  function ToTemplate(button: Button): TemplateButton {
    match button
    case Link(title, url) => WebUrl(title, url)
    case QuickReply(title, payload) => Postback(title, payload)
  }

  function FromTemplate(button: TemplateButton): Button {
    match button
    case WebUrl(title, url) => Link(title, url)
    case Postback(title, payload) => QuickReply(title, payload)
  }

  function ToTemplates(buttons: seq<Button>): (r: seq<TemplateButton>)
    ensures |r| == |buttons| && forall i | 0 <= i < |r| :: r[i] == ToTemplate(buttons[i])
  {
    seq(|buttons|, i requires 0 <= i < |buttons| => ToTemplate(buttons[i]))
  }

  /** The white space and line terminators `trimEnd` removes. */
  predicate IsSpace(c: char) {
    var u := c as int;
    || 9 <= u <= 13 || u in {0x20, 0xA0, 0x1680, 0x2028, 0x2029, 0x202F, 0x205F, 0x3000, 0xFEFF}
    || 0x2000 <= u <= 0x200A
  }

  function TrimEnd(s: string): (r: string)
    ensures r <= s && (r != [] ==> !IsSpace(r[|r| - 1]))
    ensures forall i | |r| <= i < |s| :: IsSpace(s[i])
  {
    if s != [] && IsSpace(s[|s| - 1]) then TrimEnd(s[..|s| - 1]) else s
  }

  function LinkLine(button: Button): string
    requires button.Link?
  {
    button.title + ": " + button.url
  }

  function LinkLines(links: seq<Button>): string
    requires forall b | b in links :: b.Link?
  {
    if links == [] then ""
    else if |links| == 1 then LinkLine(links[0])
    else LinkLine(links[0]) + "\n" + LinkLines(links[1..])
  }

  lemma {:induction false} LinksAreLinks(buttons: seq<Button>)
    ensures forall b | b in Links(buttons) :: b.Link? && b in buttons
    ensures forall b | b in QuickReplies(buttons) :: b.QuickReply? && b in buttons
  {
    if buttons != [] {
      LinksAreLinks(buttons[1..]);
    }
  }

  function InstagramDmMessage(message: string, buttons: seq<Button>, recipientCommentId: Option<string>): Message {
    LinksAreLinks(buttons);
    var quickReplies := QuickReplies(buttons);
    var links := Links(buttons);
    if recipientCommentId.Some? && recipientCommentId.value != "" && links != [] then
      Text(TrimEnd(message) + "\n\n" + LinkLines(links))
    else if links != [] then Template(message, ToTemplates(links) + ToTemplates(quickReplies))
    else if quickReplies != [] then TextWithReplies(message, quickReplies)
    else Text(message)
  }

  /** The buttons a payload carries as buttons, back in their original form. */
  function Carried(message: Message): seq<Button> {
    match message
    case Text(_) => []
    case TextWithReplies(_, replies) => replies
    case Template(_, buttons) => seq(|buttons|, i requires 0 <= i < |buttons| => FromTemplate(buttons[i]))
  }

  predicate AnswersCommentWithLinks(buttons: seq<Button>, recipientCommentId: Option<string>) {
    recipientCommentId.Some? && recipientCommentId.value != "" && Links(buttons) != []
  }

  lemma {:induction false} PartitionIsPermutation(buttons: seq<Button>)
    ensures multiset(Links(buttons) + QuickReplies(buttons)) == multiset(buttons)
  {
    if buttons != [] {
      PartitionIsPermutation(buttons[1..]);
      assert buttons == [buttons[0]] + buttons[1..];
    }
  }

  lemma TemplatesRoundTrip(links: seq<Button>, replies: seq<Button>, text: string)
    ensures Carried(Template(text, ToTemplates(links) + ToTemplates(replies))) == links + replies
  {
  }

  /**
   * Every button is carried exactly once if and only if the message does not answer a comment with links; then they
   * form a stable partition, links first. When it does, no button is carried: links go to the text, quick replies nowhere.
   */
  lemma ButtonsConserved(message: string, buttons: seq<Button>, recipientCommentId: Option<string>)
    ensures var sent := InstagramDmMessage(message, buttons, recipientCommentId);
            && (multiset(Carried(sent)) == multiset(buttons) <==> !AnswersCommentWithLinks(buttons, recipientCommentId))
            && if AnswersCommentWithLinks(buttons, recipientCommentId) then Carried(sent) == []
               else Carried(sent) == Links(buttons) + QuickReplies(buttons) && sent.text == message
  {
    var links, replies := Links(buttons), QuickReplies(buttons);
    PartitionIsPermutation(buttons);
    TemplatesRoundTrip(links, replies, message);
    if links == [] {
      assert links + replies == replies;
    } else {
      assert links[0] in multiset(links + replies);
    }
    hide Links, QuickReplies, ToTemplates;
  }

  /** Stability: a filter of a concatenation is the concatenation of the filters, so kept buttons keep their order. */
  lemma {:induction false} LinksKeepOrder(a: seq<Button>, b: seq<Button>)
    ensures Links(a + b) == Links(a) + Links(b)
  {
    hide Links;
    LinksFirst([]);
    if a == [] {
      assert a + b == b;
    } else {
      LinksKeepOrder(a[1..], b);
      assert a + b == [a[0]] + (a[1..] + b) && a == [a[0]] + a[1..];
      LinksFirst(a);
      LinksFirst(a + b);
    }
  }

  lemma LinksFirst(buttons: seq<Button>)
    ensures Links(buttons) ==
      if buttons == [] then [] else (if buttons[0].Link? then [buttons[0]] else []) + Links(buttons[1..])
  {
  }

  lemma {:induction false} QuickRepliesKeepOrder(a: seq<Button>, b: seq<Button>)
    ensures QuickReplies(a + b) == QuickReplies(a) + QuickReplies(b)
  {
    hide QuickReplies;
    QuickRepliesFirst([]);
    if a == [] {
      assert a + b == b;
    } else {
      QuickRepliesKeepOrder(a[1..], b);
      assert a + b == [a[0]] + (a[1..] + b) && a == [a[0]] + a[1..];
      QuickRepliesFirst(a);
      QuickRepliesFirst(a + b);
    }
  }

  lemma QuickRepliesFirst(buttons: seq<Button>)
    ensures QuickReplies(buttons) ==
      if buttons == [] then [] else (if buttons[0].QuickReply? then [buttons[0]] else []) + QuickReplies(buttons[1..])
  {
  }

  /** Where each link starts in a text that shows the links from position `from` on. */
  function Starts(links: seq<Button>, from: int): (starts: seq<int>)
    requires forall b | b in links :: b.Link?
    ensures |starts| == |links|
    ensures forall k | 0 <= k < |links| - 1 :: starts[k + 1] == starts[k] + |LinkLine(links[k])| + 1
    ensures links != [] ==> starts[0] == from
  {
    if links == [] then [] else [from] + Starts(links[1..], from + |LinkLine(links[0])| + 1)
  }

  predicate LinkAt(text: string, line: string, start: int) {
    0 <= start && start + |line| <= |text| && text[start..start + |line|] == line
  }

  lemma {:induction false} LinkShown(links: seq<Button>, prefix: string, k: nat)
    requires (forall b | b in links :: b.Link?) && k < |links|
    ensures LinkAt(prefix + LinkLines(links), LinkLine(links[k]), Starts(links, |prefix|)[k])
    decreases k
  {
    var line := LinkLine(links[0]);
    var text := prefix + LinkLines(links);
    if k == 0 {
      assert line <= LinkLines(links);
      assert text[|prefix|..|prefix| + |line|] == line;
    } else {
      LinkShown(links[1..], prefix + line + "\n", k - 1);
      LinesSplit(links, prefix);
    }
  }

  lemma LinesSplit(links: seq<Button>, prefix: string)
    requires (forall b | b in links :: b.Link?) && |links| > 1
    ensures prefix + LinkLines(links) == (prefix + LinkLine(links[0]) + "\n") + LinkLines(links[1..])
  {
  }

  /** The text shows `title: url` of each link at the given places, which follow one another. */
  ghost predicate ShowsInOrder(text: string, links: seq<Button>, starts: seq<int>)
    requires forall b | b in links :: b.Link?
  {
    && |starts| == |links|
    && (forall k | 0 <= k < |links| :: LinkAt(text, links[k].title + ": " + links[k].url, starts[k]))
    && (forall k | 0 <= k < |links| - 1 :: starts[k + 1] == starts[k] + |links[k].title + ": " + links[k].url| + 1)
  }

  /** The lines of the links, said link by link. */
  lemma LinesRead(title: string, url: string, rest: seq<Button>)
    requires forall b | b in rest :: b.Link?
    ensures LinkLines([Link(title, url)]) == title + ": " + url
    ensures rest != [] ==> LinkLines([Link(title, url)] + rest) == title + ": " + url + "\n" + LinkLines(rest)
  {
    assert ([Link(title, url)] + rest)[1..] == rest;
  }

  /** A comment reply is the trimmed message, an empty line, and every link on its own line, in order, and nothing else. */
  lemma CommentReplyShowsLinks(message: string, buttons: seq<Button>, recipientCommentId: Option<string>)
    requires AnswersCommentWithLinks(buttons, recipientCommentId)
    ensures forall b | b in Links(buttons) :: b.Link?
    ensures var sent := InstagramDmMessage(message, buttons, recipientCommentId);
            && sent == Text(TrimEnd(message) + "\n\n" + LinkLines(Links(buttons)))
            && exists starts :: ShowsInOrder(sent.text, Links(buttons), starts) && starts[0] == |TrimEnd(message)| + 2
  {
    LinksAreLinks(buttons);
    LinksShown(Links(buttons), TrimEnd(message) + "\n\n");
  }

  lemma LinksShown(links: seq<Button>, prefix: string)
    requires (forall b | b in links :: b.Link?) && links != []
    ensures ShowsInOrder(prefix + LinkLines(links), links, Starts(links, |prefix|))
  {
    hide LinkLines, LinkAt;
    forall k | 0 <= k < |links|
      ensures LinkAt(prefix + LinkLines(links), links[k].title + ": " + links[k].url, Starts(links, |prefix|)[k])
    {
      LinkShown(links, prefix, k);
    }
  }

  /** Some button is of the kind the filter keeps exactly if the filter keeps something. */
  lemma KindsPresent(buttons: seq<Button>)
    ensures Links(buttons) != [] <==> exists b | b in buttons :: b.Link?
    ensures QuickReplies(buttons) != [] <==> exists b | b in buttons :: b.QuickReply?
  {
    LinksAreLinks(buttons);
    PartitionIsPermutation(buttons);
    forall b ensures b in buttons <==> b in Links(buttons) || b in QuickReplies(buttons) {
      assert b in buttons <==> b in multiset(buttons);
      assert b in multiset(Links(buttons) + QuickReplies(buttons)) <==> b in Links(buttons) + QuickReplies(buttons);
    }
    hide Links, QuickReplies;
    if Links(buttons) != [] { assert Links(buttons)[0] in buttons; }
    if QuickReplies(buttons) != [] { assert QuickReplies(buttons)[0] in buttons; }
  }

  /** A link becomes a web button with its title and address, a quick reply a postback with its title and payload. */
  predicate WrittenAs(written: TemplateButton, button: Button) {
    match button
    case Link(title, url) => written == WebUrl(title, url)
    case QuickReply(title, payload) => written == Postback(title, payload)
  }

  /**
   * Which payload is sent: plain text for a comment with links or without buttons, a template as soon as there is a
   * link, quick replies otherwise; and how each button is written in it.
   */
  lemma PayloadIs(message: string, buttons: seq<Button>, recipientCommentId: Option<string>)
    ensures var sent := InstagramDmMessage(message, buttons, recipientCommentId);
            var linked := exists b | b in buttons :: b.Link?;
            var replied := exists b | b in buttons :: b.QuickReply?;
            var links, replies := Links(buttons), QuickReplies(buttons);
            if linked && recipientCommentId.Some? && recipientCommentId.value != "" then sent.Text?
            else if linked then
              && sent.Template? && sent.text == message && |sent.buttons| == |links| + |replies|
              && forall k | 0 <= k < |sent.buttons| :: WrittenAs(sent.buttons[k], (links + replies)[k])
            else if replied then sent == TextWithReplies(message, replies)
            else sent == Text(message)
  {
    KindsPresent(buttons);
    LinksAreLinks(buttons);
    TemplateReads(Links(buttons), QuickReplies(buttons));
    hide Links, QuickReplies, ToTemplates, LinkLines, TrimEnd;
  }

  lemma TemplateReads(links: seq<Button>, replies: seq<Button>)
    ensures var all := ToTemplates(links) + ToTemplates(replies);
            |all| == |links| + |replies| && forall k | 0 <= k < |all| :: WrittenAs(all[k], (links + replies)[k])
  {
  }
}
