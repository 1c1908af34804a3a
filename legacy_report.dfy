/** `Report` (report.py): the earlier, keyword-driven reporting dialogue. A user pastes a message
    link, then picks an abuse type by number, by keyword or by a numbered button; a cancel keyword
    ends the report from any state. Each state names the handler that answers a message in it.

    `Handle` states what one message does: the next state and the reply, or the exception raised.
    The class `Report` performs the same steps on its `state` field and is proved to match. */
module LegacyReport {
  import opened Wrappers
  import opened Text
  import opened Textwrap
  import opened Consts
  import opened Parsing
  import FlowEngine

  datatype RState =
    | REPORT_START | AWAITING_MESSAGE_LINK | AWAITING_ABUSE_TYPE
    | SPAM_ENTRY | HATEFUL_ENTRY | SEXUAL_ENTRY | BULLYING_ENTRY | HARMFUL_ENTRY | VIOLENCE_ENTRY | CSAM_ENTRY
    | REPORT_COMPLETE

  /** The state each abuse type leads to, in menu order. */
  const ENTRIES: seq<RState> :=
    [SPAM_ENTRY, HATEFUL_ENTRY, SEXUAL_ENTRY, BULLYING_ENTRY, HARMFUL_ENTRY, VIOLENCE_ENTRY, CSAM_ENTRY]

  /** The entry states are the third step. */
  lemma EntriesRank(s: RState)
    requires s in ENTRIES
    ensures Rank(s) == 3
  {
  }

  /** How far along the dialogue is; no message ever moves it back. */
  function Rank(s: RState): nat {
    match s
    case REPORT_START => 0
    case AWAITING_MESSAGE_LINK => 1
    case AWAITING_ABUSE_TYPE => 2
    case REPORT_COMPLETE => 4
    case _ => 3
  }

  /** What a reply is made of: a text, the embed showing the reported message (its author and
      content), or the embed with the emergency warning. */
  datatype Piece = Line(text: string) | Preview(msg: FlowEngine.Msg) | Emergency

  /** `transToState(state, messages)`: a click handler frozen in the state it was made in. */
  datatype ToState = ToState(frozen: RState, target: RState, messages: seq<Piece>)

  /** A reply item: something sent, or a numbered button whose click runs its handler. */
  datatype Item = Put(piece: Piece) | Button(emoji: string, click: ToState)

  /** The state after a message, and the reply. */
  datatype Turn = Turn(state: RState, reply: seq<Item>)


  /** The dialogue's texts, as the handlers return them (before dedenting). */
  datatype Wording = Wording(
    cancelled: string,
    start: string,
    linkHelp: string,
    unreadable: string,
    inDms: string,
    noGuild: string,
    noChannel: string,
    noMessage: string,
    found: string,
    menu: string,
    abuseHelp: string,
    notUnderstood: string,
    notImplemented: string,
    keycaps: seq<string>,
    typed: seq<string>,
    clicked: seq<string>,
    groups: seq<seq<string>>)

  /** One keycap, acknowledgement and keyword group per menu entry. */
  predicate Shaped(t: Wording) {
    |t.keycaps| == 7 && |t.typed| == 7 && |t.clicked| == 7 && |t.groups| == 7
  }

  /** No keyword of the menu is a single character, so a typed number is never a keyword. */
  predicate NoOneLetterKeyword(t: Wording) {
    forall j, w :: 0 <= j < |t.groups| && w in t.groups[j] ==> |w| != 1
  }

  const WORDING: Wording := Wording(
    "Report cancelled.",
    "\n" +
    "            Thank you for starting the reporting process.\n" +
    "            You can say `help` or `?` at any step for " +
    "more information.\n" +
    "            Please copy paste the link to the message " +
    "you want to report.\n" +
    "            You can obtain this link by right-clicking " +
    "the message and clicking " +
    "`Copy Message Link`.\n" +
    "        ",
    "\n" +
    "        Select a message to report and paste the link " +
    "here.\n" +
    "        You can obtain a message's link by " +
    "right-clicking the message and " +
    "clicking `Copy Message Link`.\n" +
    "    ",
    "\n" +
    "                I'm sorry, I couldn't read that link.\n" +
    "                Please try again or say `cancel` to " +
    "cancel.\n" +
    "            ",
    "\n" +
    "                It looks like you specified a message " +
    "in your DMs (notice the " +
    "`@me` in the link). I can only access messages in " +
    "guilds I am a part of.\n" +
    "                Please try again or say `cancel` to " +
    "cancel.\n" +
    "            ",
    "\n" +
    "                    I cannot accept reports of messages " +
    "from guilds that I'm not in.\n" +
    "                    Please have the guild owner add me " +
    "to the guild and try " +
    "again, or say `cancel` to cancel.\n" +
    "                ",
    "\n" +
    "                It seems this channel was deleted or " +
    "never existed.\n" +
    "                Please try again or say `cancel` to " +
    "cancel.\n" +
    "            ",
    "\n" +
    "                It seems this message was deleted or " +
    "never existed.\n" +
    "                Please try again or say `cancel` to " +
    "cancel.\n" +
    "            ",
    "I found this message:",
    "\n" +
    "                Please tell us what you think is " +
    "inappropriate about this message:\n" +
    "                **1**. Misinformation or Spam\n" +
    "                **2**. Hateful Content\n" +
    "                **3**. Sexual Content\n" +
    "                **4**. Bullying\n" +
    "                **5**. Harmful/Dangerous Content\n" +
    "                **6**. Promoting Violence or Terrorism\n" +
    "                **7**. Child Abuse\n" +
    "                You can enter a keyword to choose one, " +
    "or select a button below.\n" +
    "            ",
    "\n" +
    "        Enter a keyword from one of the abuse types " +
    "above, or select one of the " +
    "buttons to choose it.\n" +
    "    ",
    "\n" +
    "            Sorry, I didn't understand your reply. Try " +
    "different words, or " +
    "click one of the buttons above.\n" +
    "        ",
    "Not Implemented",
    KEYCAPS, TYPED, CLICKED, ABUSE_GROUPS)

  const KEYCAPS: seq<string> := [
    "1\U{FE0F}\U{20E3}", "2\U{FE0F}\U{20E3}", "3\U{FE0F}\U{20E3}", "4\U{FE0F}\U{20E3}",
    "5\U{FE0F}\U{20E3}", "6\U{FE0F}\U{20E3}", "7\U{FE0F}\U{20E3}"]

  /** The acknowledgement of a typed choice. */
  const TYPED: seq<string> := [
    "\n                You selected: **1**. Misinformation " +
    "or Spam\n            ",
    "\n                You selected: **2**. Hateful " +
    "Content\n            ",
    "\n                You selected: **3**. Sexual Content\n " +
    "           ",
    "\n                    You selected: **4**. Bullying\n   " +
    "             ",
    "\n                    You selected: **5**. " +
    "Harmful/Dangerous Content\n                ",
    "\n                    You selected: **6**. Promoting " +
    "Violence or Terrorism\n                ",
    "\n                    You selected: **7**. Child " +
    "Abuse\n                "]

  /** The acknowledgement a button sends. */
  const CLICKED: seq<string> := [
    "\n                You selected: 1\U{FE0F}\U{20E3}  " +
    "Misinformation or Spam\n            ",
    "\n                You selected: 2\U{FE0F}\U{20E3}  " +
    "Hateful Content\n            ",
    "\n                You selected: 3\U{FE0F}\U{20E3}  " +
    "Sexual Content\n            ",
    "\n                    You selected: 4\U{FE0F}\U{20E3}  " +
    "Bullying\n                ",
    "\n                    You selected: 5\U{FE0F}\U{20E3}  " +
    "Harmful/Dangerous Content\n                ",
    "\n" +
    "                    You selected: 6\U{FE0F}\U{20E3}  " +
    "Promoting Violence or Terrorism\n" +
    "                ",
    "\n                    You selected: 7\U{FE0F}\U{20E3}  " +
    "Child Abuse\n                "]

  const SPAM_WORDS: seq<string> := ["misinformation", "disinformation", "spam", "misinfo", "disinfo", "information", "info"]
  const HATE_WORDS: seq<string> := ["hateful", "hate", "hatred", "racism", "racist", "sexist", "sexism"]
  const SEXUAL_WORDS: seq<string> := ["sexual", "sex", "nude", "nudity", "naked"]
  const BULLYING_WORDS: seq<string> := ["bullying", "bully", "bullies", "cyberbullying", "cyberbully", "cyberbullies"]
  const HARMFUL_WORDS: seq<string> := ["harmful", "dangerous", "harm", "danger", "self-harm"]
  const VIOLENCE_WORDS: seq<string> := ["violence", "violent", "terrorism", "terror", "terrorist", "promote", "incite"]
  const CSAM_WORDS: seq<string> := ["child", "children", "kid", "kids", "minor", "minors", "abuse", "csam"]

  /** The keywords of each menu entry, in the order they are tried. */
  const ABUSE_GROUPS: seq<seq<string>> :=
    [SPAM_WORDS, HATE_WORDS, SEXUAL_WORDS, BULLYING_WORDS, HARMFUL_WORDS, VIOLENCE_WORDS, CSAM_WORDS]

  /** Entries 4 to 7 come with the emergency warning. */
  function Warned(k: nat, text: string): seq<Piece>
    requires k < 7
  {
    if k < 3 then [Line(text)] else [Line(text), Emergency]
  }

  function Sent(ps: seq<Piece>): seq<Item> {
    seq(|ps|, i requires 0 <= i < |ps| => Put(ps[i]))
  }

  /** `dedent(obj)`: texts lose their common indentation, embeds are left alone. */
  function Dedented(p: Piece): Piece {
    if p.Line? then Line(Dedent(p.text)) else p
  }

  function DedentItem(i: Item): Item {
    if i.Put? then Put(Dedented(i.piece)) else i
  }

  /** `tuple(dedent(msg) for msg in ret)`. */
  function DedentAll(items: seq<Item>): seq<Item> {
    seq(|items|, i requires 0 <= i < |items| => DedentItem(items[i]))
  }

  /** A one-text reply, dedented. */
  lemma DedentOne(text: string)
    ensures DedentAll([Put(Line(text))]) == [Put(Line(Dedent(text)))]
  {
  }

  function DedentPieces(ps: seq<Piece>): seq<Piece> {
    seq(|ps|, i requires 0 <= i < |ps| => Dedented(ps[i]))
  }

  /** The handler of `transToState` fired in state `s`, corrected so that its `reaction` is the
      event's reaction: nothing happens unless the dialogue is still in the state the handler was
      made in; then its messages are sent and it moves on. */
  function Clicked(s: RState, h: ToState): (r: (RState, seq<Piece>))
    ensures s != h.frozen ==> r == (s, [])
    ensures s == h.frozen ==> r.0 == h.target && |r.1| == |h.messages|
    ensures s == h.frozen ==> forall i :: 0 <= i < |h.messages| ==> r.1[i] == Dedented(h.messages[i])
  {
    if s != h.frozen then (s, []) else (h.target, DedentPieces(h.messages))
  }

  /** The handler as the reaction dispatcher calls it: `handler(reaction_obj, client, reaction,
      user)` binds `toState`'s `reaction` to the client, so a live handler with messages to send
      raises AttributeError on `reaction.message` before it sends anything or changes the state.
      A stale handler and one with no messages behave as corrected. */
  function ClickedAsWritten(s: RState, h: ToState): Result<(RState, seq<Piece>), string> {
    if s == h.frozen && h.messages != [] then Err("AttributeError") else Ok(Clicked(s, h))
  }

  /** The seven numbered buttons, made while the dialogue is in `frozen`. */
  function Buttons(t: Wording, frozen: RState): (r: seq<Item>)
    requires Shaped(t)
    ensures |r| == 7
    ensures forall k :: 0 <= k < 7 ==> r[k].Button? && r[k].emoji == t.keycaps[k]
                                        && r[k].click.frozen == frozen && r[k].click.target == ENTRIES[k]
  {
    seq(7, k requires 0 <= k < 7 => Button(t.keycaps[k], ToState(frozen, ENTRIES[k], Warned(k, t.clicked[k]))))
  }

  /** `makeHelpMsg(help)`: the help text when the stripped, lower-cased message is a help keyword;
      otherwise the handler runs. */
  function HelpMsg(help: string, content: string): (r: Option<seq<Item>>)
    ensures r.Some? <==> Lower(Strip(content)) in HELP_KEYWORDS
    ensures r.Some? ==> r.value == [Put(Line(help))]
  {
    if Lower(Strip(content)) in HELP_KEYWORDS then Some([Put(Line(help))]) else None
  }

  /** `awaiting_message_link`: a link to a message the client can fetch shows the message and the
      abuse menu with its buttons and moves to AWAITING_ABUSE_TYPE; every other answer (help, no
      link, a link into DMs, an unknown guild, channel or message) leaves the state as it was. */
  function LinkAnswer(t: Wording, content: string, dir: Directory): (r: Turn)
    requires Shaped(t)
    ensures r.state == AWAITING_ABUSE_TYPE || r.state == AWAITING_MESSAGE_LINK
    ensures r.state == AWAITING_ABUSE_TYPE <==> HelpMsg(t.linkHelp, content).None? && ResolveLink(content, dir).Found?
    ensures r.state == AWAITING_ABUSE_TYPE ==>
      r.reply == [Put(Line(t.found)), Put(Preview(ResolveLink(content, dir).msg)), Put(Line(t.menu))] + Buttons(t, AWAITING_ABUSE_TYPE)
    ensures HelpMsg(t.linkHelp, content).Some? ==> r == Turn(AWAITING_MESSAGE_LINK, [Put(Line(t.linkHelp))])
    ensures HelpMsg(t.linkHelp, content).None? && LinkSearch(content).Some? && LinkSearch(content).value.guild == "@me" ==>
      r == Turn(AWAITING_MESSAGE_LINK, [Put(Line(t.inDms))])
  {
    match HelpMsg(t.linkHelp, content)
    case Some(help) => Turn(AWAITING_MESSAGE_LINK, help)
    case None =>
      match ResolveLink(content, dir)
      case Unreadable => Turn(AWAITING_MESSAGE_LINK, [Put(Line(t.unreadable))])
      case InDms => Turn(AWAITING_MESSAGE_LINK, [Put(Line(t.inDms))])
      case UnknownGuild => Turn(AWAITING_MESSAGE_LINK, [Put(Line(t.noGuild))])
      case UnknownChannel => Turn(AWAITING_MESSAGE_LINK, [Put(Line(t.noChannel))])
      case UnknownMessage => Turn(AWAITING_MESSAGE_LINK, [Put(Line(t.noMessage))])
      case Found(m) =>
        Turn(AWAITING_ABUSE_TYPE, [Put(Line(t.found)), Put(Preview(m)), Put(Line(t.menu))] + Buttons(t, AWAITING_ABUSE_TYPE))
  }

  /** `awaiting_abuse_type`: the first entry, in menu order, that the stripped answer selects by
      its number or by one of its words decides the next state; otherwise nothing changes. */
  function AbuseAnswer(t: Wording, content: string): (r: Turn)
    requires Shaped(t)
    ensures r.state == AWAITING_ABUSE_TYPE || r.state in ENTRIES
    ensures HelpMsg(t.abuseHelp, content).None? && FirstSelected(Strip(content), t.groups, 0).Some? ==>
      var k := FirstSelected(Strip(content), t.groups, 0).value;
      r == Turn(ENTRIES[k], Sent(Warned(k, t.typed[k])))
    ensures HelpMsg(t.abuseHelp, content).None? && FirstSelected(Strip(content), t.groups, 0).None? ==>
      r == Turn(AWAITING_ABUSE_TYPE, [Put(Line(t.notUnderstood))])
    ensures HelpMsg(t.abuseHelp, content).Some? ==> r == Turn(AWAITING_ABUSE_TYPE, [Put(Line(t.abuseHelp))])
  {
    match HelpMsg(t.abuseHelp, content)
    case Some(help) => Turn(AWAITING_ABUSE_TYPE, help)
    case None =>
      match FirstSelected(Strip(content), t.groups, 0)
      case Some(k) => Turn(ENTRIES[k], Sent(Warned(k, t.typed[k])))
      case None => Turn(AWAITING_ABUSE_TYPE, [Put(Line(t.notUnderstood))])
  }

  /** `handle_message`: a cancel keyword completes the report from any state; otherwise the
      handler named after the state answers and its texts are dedented. In REPORT_COMPLETE that
      name is `report_complete`, which takes no message, so the call raises TypeError. */
  function Handle(t: Wording, s: RState, content: string, dir: Directory): (r: Result<Turn, string>)
    requires Shaped(t)
    ensures Lower(Strip(content)) in CANCEL_KEYWORDS ==> r == Ok(Turn(REPORT_COMPLETE, [Put(Line(t.cancelled))]))
    ensures r.Err? <==> s == REPORT_COMPLETE && Lower(Strip(content)) !in CANCEL_KEYWORDS
    ensures r.Err? ==> r.error == "TypeError"
    ensures r.Ok? ==> Rank(s) <= Rank(r.value.state)
    ensures r.Ok? && r.value.state == REPORT_COMPLETE ==> Lower(Strip(content)) in CANCEL_KEYWORDS
  {
    if Lower(Strip(content)) in CANCEL_KEYWORDS then Ok(Turn(REPORT_COMPLETE, [Put(Line(t.cancelled))]))
    else
      match s
      case REPORT_START => Ok(Turn(AWAITING_MESSAGE_LINK, DedentAll([Put(Line(t.start))])))
      case AWAITING_MESSAGE_LINK =>
        var a := LinkAnswer(t, content, dir);
        Ok(Turn(a.state, DedentAll(a.reply)))
      case AWAITING_ABUSE_TYPE =>
        var a := AbuseAnswer(t, content);
        if a.state in ENTRIES then EntriesRank(a.state); Ok(Turn(a.state, DedentAll(a.reply)))
        else Ok(Turn(a.state, DedentAll(a.reply)))
      case REPORT_COMPLETE => Err("TypeError")
      case _ => Ok(Turn(s, DedentAll([Put(Line(t.notImplemented))])))
  }

  /** The menu's own keywords are all longer than one character. */
  lemma WordingShaped()
    ensures Shaped(WORDING) && NoOneLetterKeyword(WORDING)
  {
    forall j, w | 0 <= j < |ABUSE_GROUPS| && w in ABUSE_GROUPS[j]
      ensures |w| != 1
    {
      LongWords(ABUSE_GROUPS[j], w);
    }
  }

  /** A keyword of one of the lists of report.py is longer than one character. */
  lemma LongWords(group: seq<string>, w: string)
    requires group in ABUSE_GROUPS && w in group
    ensures |w| > 1
  {
    if group == SPAM_WORDS {
    } else if group == HATE_WORDS {
    } else if group == SEXUAL_WORDS {
    } else if group == BULLYING_WORDS {
    } else if group == HARMFUL_WORDS {
    } else if group == VIOLENCE_WORDS {
    } else {
      assert group == CSAM_WORDS;
    }
  }

  /** A menu number is one character that no cancel or help keyword and no keyword group holds,
      so it selects its own entry. */
  lemma NumberIsNoKeyword(t: Wording, k: nat)
    requires Shaped(t) && NoOneLetterKeyword(t) && k < 7
    ensures var d := DecimalString(k + 1);
      Strip(d) == d && Lower(d) !in CANCEL_KEYWORDS && Lower(d) !in HELP_KEYWORDS
      && FirstSelected(d, t.groups, 0) == Some(k)
  {
    var d := DecimalString(k + 1);
    OneDigitWord(k + 1);
    OneLetterKeywords(d);
    assert d != "?" && !IsSpace(d[0]) by {
      assert d[0] == DigitChar(k + 1);
    }
    StripNonSpaceEnds(d);
    forall j | 0 <= j < k
      ensures !Names(d, t.groups[j])
    {
      NamesWord(d, t.groups[j]);
    }
    NumberSelects(t.groups, k, d);
  }

  /** Typing a menu number while the menu is up selects that entry. */
  lemma TypedNumberSelects(t: Wording, k: nat, dir: Directory)
    requires Shaped(t) && NoOneLetterKeyword(t) && k < 7
    ensures Handle(t, AWAITING_ABUSE_TYPE, DecimalString(k + 1), dir)
            == Ok(Turn(ENTRIES[k], DedentAll(Sent(Warned(k, t.typed[k])))))
  {
    NumberIsNoKeyword(t, k);
  }

  /** With the click corrected, a button of the menu leads where typing its number leads, and
      both answers carry the emergency warning exactly for entries 4 to 7. */
  lemma ButtonsAgreeWithNumbers(t: Wording, k: nat, dir: Directory)
    requires Shaped(t) && NoOneLetterKeyword(t) && k < 7
    ensures var b := Buttons(t, AWAITING_ABUSE_TYPE)[k];
      var typed := Handle(t, AWAITING_ABUSE_TYPE, DecimalString(k + 1), dir);
      b.Button? && b.emoji == t.keycaps[k]
      && typed.Ok? && Clicked(AWAITING_ABUSE_TYPE, b.click).0 == typed.value.state == ENTRIES[k]
      && (Emergency in Clicked(AWAITING_ABUSE_TYPE, b.click).1 <==> k >= 3)
      && (Put(Emergency) in typed.value.reply <==> k >= 3)
  {
    TypedNumberSelects(t, k, dir);
    var reply := DedentAll(Sent(Warned(k, t.typed[k])));
    assert Put(Emergency) in reply <==> k >= 3 by {
      if k >= 3 {
        assert reply[1] == Put(Emergency);
      } else {
        assert reply == [Put(Line(Dedent(t.typed[k])))];
      }
    }
    var sent := Clicked(AWAITING_ABUSE_TYPE, Buttons(t, AWAITING_ABUSE_TYPE)[k].click).1;
    assert Emergency in sent <==> k >= 3 by {
      if k >= 3 {
        assert sent[1] == Emergency;
      } else {
        assert sent == [Line(Dedent(t.clicked[k]))];
      }
    }
  }

  /** As written, every button of the live menu raises and leaves the dialogue on the menu, while
      typing the same number moves it to the entry; the corrected click moves there too. */
  lemma MenuClickRaisesAsWritten(t: Wording, k: nat, dir: Directory)
    requires Shaped(t) && NoOneLetterKeyword(t) && k < 7
    ensures var h := Buttons(t, AWAITING_ABUSE_TYPE)[k].click;
      ClickedAsWritten(AWAITING_ABUSE_TYPE, h) == Err("AttributeError")
      && Clicked(AWAITING_ABUSE_TYPE, h).0 == ENTRIES[k] != AWAITING_ABUSE_TYPE
    ensures var typed := Handle(t, AWAITING_ABUSE_TYPE, DecimalString(k + 1), dir);
      typed.Ok? && typed.value.state == ENTRIES[k]
  {
    TypedNumberSelects(t, k, dir);
    var h := Buttons(t, AWAITING_ABUSE_TYPE)[k].click;
    assert h == ToState(AWAITING_ABUSE_TYPE, ENTRIES[k], Warned(k, t.clicked[k]));
    assert h.messages != [] by {
      assert Warned(k, t.clicked[k])[0] == Line(t.clicked[k]);
    }
    assert ClickedAsWritten(AWAITING_ABUSE_TYPE, h) == Err("AttributeError");
  }

  /** Once any answer has moved the dialogue on from the menu, its buttons do nothing. */
  lemma MenuButtonsGoStale(t: Wording, content: string, dir: Directory, k: nat)
    requires Shaped(t) && k < 7
    requires Handle(t, AWAITING_ABUSE_TYPE, content, dir).Ok?
    requires Handle(t, AWAITING_ABUSE_TYPE, content, dir).value.state != AWAITING_ABUSE_TYPE
    ensures var s := Handle(t, AWAITING_ABUSE_TYPE, content, dir).value.state;
      Clicked(s, Buttons(t, AWAITING_ABUSE_TYPE)[k].click) == (s, [])
  {
  }

  /** A message that is no keyword and links to a message the client can fetch moves the
      dialogue from AWAITING_MESSAGE_LINK to the menu. */
  lemma LinkAnswerFound(t: Wording, content: string, msg: FlowEngine.Msg, dir: Directory)
    requires Shaped(t)
    requires Lower(Strip(content)) !in CANCEL_KEYWORDS && Lower(Strip(content)) !in HELP_KEYWORDS
    requires ResolveLink(content, dir) == Found(msg)
    ensures Handle(t, AWAITING_MESSAGE_LINK, content, dir) == Ok(Turn(AWAITING_ABUSE_TYPE,
      DedentAll([Put(Line(t.found)), Put(Preview(msg)), Put(Line(t.menu))] + Buttons(t, AWAITING_ABUSE_TYPE))))
  {
  }

  /** Pasting a "Copy Message Link" link to a message the client can fetch shows that message and
      the menu, whose buttons are live in the state the dialogue moves to. */
  lemma PastedLinkFindsMessage(t: Wording, g: string, c: string, m: string, dir: Directory)
    requires Shaped(t)
    requires g != [] && AllDigits(g) && c != [] && AllDigits(c) && m != [] && AllDigits(m)
    requires DecimalValue(g) in dir.guilds && DecimalValue(c) in dir.guilds[DecimalValue(g)]
    requires DecimalValue(m) in dir.guilds[DecimalValue(g)][DecimalValue(c)]
    ensures var r := Handle(t, AWAITING_MESSAGE_LINK, LINK_PREFIX + g + "/" + c + "/" + m, dir);
      r.Ok? && r.value.state == AWAITING_ABUSE_TYPE && |r.value.reply| == 10
      && r.value.reply[1] == Put(Preview(dir.guilds[DecimalValue(g)][DecimalValue(c)][DecimalValue(m)]))
      && forall k :: 3 <= k < 10 ==> r.value.reply[k].Button? && r.value.reply[k].click.frozen == r.value.state
  {
    var link := LINK_PREFIX + g + "/" + c + "/" + m;
    var msg := dir.guilds[DecimalValue(g)][DecimalValue(c)][DecimalValue(m)];
    LinkFound(g, c, m, dir);
    LinkIsNoKeyword(g, c, m);
    LinkAnswerFound(t, link, msg, dir);
    MenuReply(t, msg);
  }

  /** A message link is neither a cancel nor a help keyword. */
  lemma LinkIsNoKeyword(g: string, c: string, m: string)
    requires m != [] && AllDigits(m)
    ensures var link := LINK_PREFIX + g + "/" + c + "/" + m;
      Lower(Strip(link)) !in CANCEL_KEYWORDS && Lower(Strip(link)) !in HELP_KEYWORDS
  {
    var link := LINK_PREFIX + g + "/" + c + "/" + m;
    assert link[0] == 'h' && link[|link| - 1] == m[|m| - 1];
    assert !IsSpace(link[|link| - 1]);
    StripNonSpaceEnds(link);
    assert Lower(link)[0] == 'h';
  }

  /** The reply to a found message: the message's preview second, then the seven buttons. */
  lemma MenuReply(t: Wording, msg: FlowEngine.Msg)
    requires Shaped(t)
    ensures var r := DedentAll([Put(Line(t.found)), Put(Preview(msg)), Put(Line(t.menu))] + Buttons(t, AWAITING_ABUSE_TYPE));
      |r| == 10 && r[1] == Put(Preview(msg))
      && forall k :: 3 <= k < 10 ==> r[k].Button? && r[k].click.frozen == AWAITING_ABUSE_TYPE
  {
    var items := [Put(Line(t.found)), Put(Preview(msg)), Put(Line(t.menu))] + Buttons(t, AWAITING_ABUSE_TYPE);
    assert items[1] == Put(Preview(msg));
    assert forall k :: 3 <= k < 10 ==> items[k] == Buttons(t, AWAITING_ABUSE_TYPE)[k - 3];
  }

  /** Help in the link or menu state repeats that state's help and changes nothing; in the first
      state, which has no help, it starts the report. */
  lemma HelpKeepsState(t: Wording, s: RState, content: string, dir: Directory)
    requires Shaped(t)
    requires Lower(Strip(content)) in HELP_KEYWORDS
    ensures s == AWAITING_MESSAGE_LINK ==> Handle(t, s, content, dir) == Ok(Turn(s, [Put(Line(Dedent(t.linkHelp)))]))
    ensures s == AWAITING_ABUSE_TYPE ==> Handle(t, s, content, dir) == Ok(Turn(s, [Put(Line(Dedent(t.abuseHelp)))]))
    ensures s == REPORT_START ==> Handle(t, s, content, dir).Ok? && Handle(t, s, content, dir).value.state == AWAITING_MESSAGE_LINK
  {
    assert Lower(Strip(content)) !in CANCEL_KEYWORDS;
    if s == AWAITING_MESSAGE_LINK {
      DedentOne(t.linkHelp);
    } else if s == AWAITING_ABUSE_TYPE {
      DedentOne(t.abuseHelp);
    }
  }

  /** The dialogue object: its state, and the client it looks messages up in. */
  class Report {
    var state: RState
    const dir: Directory
    const texts: Wording

    /** `__init__`. */
    constructor (dir: Directory)
      ensures state == REPORT_START && this.dir == dir && texts == WORDING && Valid()
    {
      state := REPORT_START;
      this.dir := dir;
      texts := WORDING;
      WordingShaped();
    }

    /** The texts have one entry per menu item, none of them a one-letter keyword. */
    predicate Valid()
      reads this
    {
      Shaped(texts) && NoOneLetterKeyword(texts)
    }

    /** `report_complete()`. */
    function ReportComplete(): (b: bool)
      reads this
      ensures b <==> Rank(state) == 4
    {
      state == REPORT_COMPLETE
    }

    /** `transToState(target, messages)`: clicked while the dialogue is still where it is now, the
        handler sends its messages and moves to `target`; clicked anywhere else, it does nothing. */
    function TransToState(target: RState, messages: seq<Piece>): (h: ToState)
      reads this
      ensures Clicked(state, h) == (target, DedentPieces(messages))
      ensures forall s :: s != state ==> Clicked(s, h) == (s, [])
    {
      ToState(state, target, messages)
    }

    /** `handle_message(message)`: the reply, or the exception raised. */
    method HandleMessage(content: string) returns (r: Result<seq<Item>, string>)
      requires Valid()
      modifies this
      ensures Handle(texts, old(state), content, dir) == if r.Ok? then Ok(Turn(state, r.value)) else Err(r.error)
      ensures r.Err? ==> state == old(state)
    {
      if Lower(Strip(content)) in CANCEL_KEYWORDS {
        state := REPORT_COMPLETE;
        return Ok([Put(Line(texts.cancelled))]);
      }
      var ret: seq<Item>;
      match state {
        case REPORT_START => ret := ReportStart();
        case AWAITING_MESSAGE_LINK => ret := AwaitingMessageLink(content);
        case AWAITING_ABUSE_TYPE => ret := AwaitingAbuseType(content);
        case REPORT_COMPLETE => return Err("TypeError");
        case _ => ret := [Put(Line(texts.notImplemented))];
      }
      r := Ok(DedentAll(ret));
    }

    /** `report_start`. */
    method ReportStart() returns (items: seq<Item>)
      modifies this
      ensures state == AWAITING_MESSAGE_LINK && items == [Put(Line(texts.start))]
    {
      state := AWAITING_MESSAGE_LINK;
      items := [Put(Line(texts.start))];
    }

    /** `awaiting_message_link`: the buttons are made after the state has moved on, so they are
        frozen in AWAITING_ABUSE_TYPE. */
    method AwaitingMessageLink(content: string) returns (items: seq<Item>)
      requires state == AWAITING_MESSAGE_LINK && Valid()
      modifies this
      ensures Turn(state, items) == LinkAnswer(texts, content, dir)
    {
      var help := HelpMsg(texts.linkHelp, content);
      if help.Some? {
        return help.value;
      }
      match ResolveLink(content, dir)
      case Unreadable => items := [Put(Line(texts.unreadable))];
      case InDms => items := [Put(Line(texts.inDms))];
      case UnknownGuild => items := [Put(Line(texts.noGuild))];
      case UnknownChannel => items := [Put(Line(texts.noChannel))];
      case UnknownMessage => items := [Put(Line(texts.noMessage))];
      case Found(m) =>
        state := AWAITING_ABUSE_TYPE;
        var buttons := MakeButtons();
        items := [Put(Line(texts.found)), Put(Preview(m)), Put(Line(texts.menu))] + buttons;
    }

    /** The seven keycap buttons, each a `transToState` handler made in the current state. */
    method MakeButtons() returns (buttons: seq<Item>)
      requires Valid()
      ensures buttons == Buttons(texts, state)
    {
      buttons := [];
      var k := 0;
      while k < 7
        invariant 0 <= k <= 7
        invariant buttons == Buttons(texts, state)[..k]
      {
        buttons := buttons + [Button(texts.keycaps[k], TransToState(ENTRIES[k], Warned(k, texts.clicked[k])))];
        k := k + 1;
      }
    }

    /** `awaiting_abuse_type`. */
    method AwaitingAbuseType(content: string) returns (items: seq<Item>)
      requires state == AWAITING_ABUSE_TYPE && Valid()
      modifies this
      ensures Turn(state, items) == AbuseAnswer(texts, content)
    {
      var help := HelpMsg(texts.abuseHelp, content);
      if help.Some? {
        return help.value;
      }
      var k := FirstSelected(Strip(content), texts.groups, 0);
      if k.Some? {
        state := ENTRIES[k.value];
        items := Sent(Warned(k.value, texts.typed[k.value]));
      } else {
        items := [Put(Line(texts.notUnderstood))];
      }
    }

    /** A `transToState` handler fires, as corrected (`ClickedAsWritten` is the code as called):
        the messages are sent one by one, dedented. */
    method Click(h: ToState) returns (sent: seq<Piece>)
      modifies this
      ensures (state, sent) == Clicked(old(state), h)
    {
      if state != h.frozen {
        return [];
      }
      sent := [];
      var i := 0;
      while i < |h.messages|
        invariant 0 <= i <= |h.messages|
        invariant |sent| == i && forall j :: 0 <= j < i ==> sent[j] == Dedented(h.messages[j])
      {
        sent := sent + [Dedented(h.messages[i])];
        i := i + 1;
      }
      assert sent == DedentPieces(h.messages);
      state := h.target;
    }
  }
}
