/** `SentBadMessageFlow` and its variant `CSAMDummyWarningFlow`. A message the bot flagged was
    removed, and its author is asked in DMs whether to send it anyway: "yes" re-posts it (behind
    spoiler bars when it is explicit) and files an automated report, "no" drops it, and after five
    minutes without an answer the offer lapses. The dummy variant, shown for images suspected of
    child abuse, never files a report of its own.

    `Answer` is what one answer does as the code handles it; the dialogue itself follows `Reply`,
    which also ignores the buttons once the warning was settled (see `ButtonsOutliveTheWarning`). */
module SentWarningFlow {
  import opened Wrappers
  import opened Text
  import opened Consts
  import opened Reactions
  import opened FlowEngine
  import opened FlowTable
  import UserReportFlow

  /** The single state of the dialogue. */
  datatype WState = START

  /** The flow's urgency: the one given, else the default of its abuse type. The three abuse types
      the table lacks make the constructor raise a KeyError. */
  function Urgency(abuse: Option<AbuseType>, given: Option<nat>): (r: Result<nat, string>)
    ensures given.Some? ==> r == Ok(given.value)
    ensures given.None? ==> (r.Err? <==> abuse == Some(BULLYING) || abuse == Some(HARMFUL) || abuse == Some(CSAM))
    ensures given.None? && r.Ok? ==> r.value <= 2
    ensures given.None? && r.Ok? ==> (r.value == 2 <==> abuse == Some(VIOLENCE))
    ensures given.None? && r.Ok? ==> (r.value == 0 <==> abuse == None || abuse == Some(SPAM))
  {
    if given.Some? then Ok(given.value)
    else
      match abuse
      case None => Ok(0)
      case Some(a) =>
        match a
        case SPAM => Ok(0)
        case VIOLENCE => Ok(2)
        case SEXUAL => Ok(1)
        case HATEFUL => Ok(1)
        case HARASS => Ok(1)
        case _ => Err("KeyError")
  }

  /** What a warning was made with. `reports` is false for the dummy warning, whose `send_report`
      does nothing. An empty explanation stands for a missing one. */
  datatype Facts = Facts(
    message: Msg,
    explicit: bool,
    abuse: Option<AbuseType>,
    explanation: string,
    urgency: nat,
    alwaysReport: bool,
    reports: bool)

  /** `SentBadMessageFlow(...)`: fails exactly when the urgency lookup does. */
  function SentBad(message: Msg, alwaysReport: bool, explicit: bool, abuse: Option<AbuseType>,
                   explanation: string, urgency: Option<nat>): (r: Result<Facts, string>)
    ensures r.Err? <==> Urgency(abuse, urgency).Err?
    ensures r.Ok? ==> r.value.reports && r.value.urgency == Urgency(abuse, urgency).value
    ensures r.Ok? ==> r.value.message == message && r.value.abuse == abuse && r.value.explicit == explicit
  {
    match Urgency(abuse, urgency)
    case Err(e) => Err(e)
    case Ok(u) => Ok(Facts(message, explicit, abuse, explanation, u, alwaysReport, true))
  }

  const DUMMY_EXPLANATION: string := "as having a sexually suggestive image"

  /** `CSAMDummyWarningFlow(message)`: an explicit sexual-content warning that never reports. The
      urgency lookup for sexual content succeeds, so making one never raises. */
  function CsamDummy(message: Msg): (r: Facts)
    ensures r.urgency == 1 && r.explicit && r.abuse == Some(SEXUAL)
    ensures !r.reports && !r.alwaysReport && r.message == message
  {
    var w := SentBad(message, false, true, Some(SEXUAL), DUMMY_EXPLANATION, None);
    w.value.(reports := false)
  }

  /** The dialogue's texts. */
  datatype Wording = Wording(
    flagged: string,
    removed: string,
    confirm: string,
    hiddenNote: string,
    caution: string,
    says: string,
    resent: string,
    goTo: string,
    thanks: string,
    sorry: string,
    lapsed: string)

  const WORDING: Wording := Wording(
    "Your message was flagged",
    " and removed:",
    "Are you sure you want to send this message?",
    " It will be hidden from most users unless they decide " +
    "to interact with the message.",
    "*The following message may contain inappropriate " +
    "content. Click the black bar to reveal it.*\n",
    " says:*",
    "Your original message has been re-sent. You can jump to " +
    "it by clicking below. " +
    "Thank you for taking the time to reconsider your message:",
    "[Go to your message]",
    "Thank you for taking the time to reconsider your message.",
    "Sorry, I didn't understand that. Please reply with " +
    "`yes` or `no` or click one " +
    "of the buttons above.",
    "Your message can no longer be sent due to inactivity. " +
    "You can send your " +
    "original message manually if you'd like.")

  /** The introduction of START: what was flagged and why, a preview, the question and its buttons. */
  function Intro(t: Wording, f: Facts): (r: seq<Output<WState>>)
    ensures |r| == 5 && r[3..] == [YesButton(START), NoButton(START)]
    ensures r[1] == Card(MessagePreviewText(f.message.content, f.message.attachments))
    ensures f.explanation == [] ==> r[0] == Text(t.flagged + t.removed)
    ensures t.hiddenNote != [] ==> (f.explicit <==> r[2] != Text(t.confirm))
  {
    var question := t.confirm + (if f.explicit then t.hiddenNote else "");
    assert f.explicit ==> |question| == |t.confirm| + |t.hiddenNote|;
    assert !f.explicit ==> question == t.confirm;
    assert f.explanation == [] ==> t.flagged + [] + t.removed == t.flagged + t.removed;
    [Text(t.flagged + (if f.explanation != "" then " " + f.explanation else "") + t.removed),
     Card(MessagePreviewText(f.message.content, f.message.attachments)),
     Text(question),
     YesButton(START),
     NoButton(START)]
  }

  /** `content.replace("||", "\\|\\|")`: scanning left to right, each pair of bars is escaped. */
  function EscapeBars(s: string): (r: string)
    ensures |r| >= |s|
    ensures s != [] ==> r != [] && (s[0] != '|' ==> r[0] == s[0])
  {
    if |s| >= 2 && s[0] == '|' && s[1] == '|' then "\\|\\|" + EscapeBars(s[2..])
    else if s == [] then []
    else [s[0]] + EscapeBars(s[1..])
  }

  /** No two adjacent bars of `s` can close a spoiler: the first bar of any such pair is escaped. */
  predicate NoOpenPair(s: string) {
    forall i :: 0 <= i < |s| - 1 && s[i] == '|' && s[i + 1] == '|' ==> 0 < i && s[i - 1] == '\\'
  }

  /** The escaping leaves no pair of bars that could end the spoiler early. */
  lemma {:induction false} EscapedHasNoOpenPair(s: string)
    ensures NoOpenPair(EscapeBars(s))
  {
    if |s| >= 2 && s[0] == '|' && s[1] == '|' {
      var rest := EscapeBars(s[2..]);
      EscapedHasNoOpenPair(s[2..]);
      var r := "\\|\\|" + rest;
      assert r == EscapeBars(s);
      forall i | 0 <= i < |r| - 1 && r[i] == '|' && r[i + 1] == '|'
        ensures 0 < i && r[i - 1] == '\\'
      {
        if i >= 4 {
          assert rest[i - 4] == '|' && rest[i - 3] == '|';
        }
      }
    } else if s != [] {
      var rest := EscapeBars(s[1..]);
      EscapedHasNoOpenPair(s[1..]);
      var r := [s[0]] + rest;
      assert r == EscapeBars(s);
      forall i | 0 <= i < |r| - 1 && r[i] == '|' && r[i + 1] == '|'
        ensures 0 < i && r[i - 1] == '\\'
      {
        if i > 0 {
          assert rest[i - 1] == '|' && rest[i] == '|';
        }
      }
    }
  }

  /** The text of the replacement post: an explicit message goes behind spoiler bars (nothing when
      it is empty), its own bars escaped while smart spoilers are on; any other as it was. */
  function Reposted(content: string, explicit: bool, smart: bool): string {
    if !explicit then content
    else
      var c := if smart then EscapeBars(content) else content;
      if c != [] then "||" + c + "||" else ""
  }

  /** With smart spoilers on, an explicit message is wrapped in one pair of spoiler bars around a
      body that has no pair of its own, and is empty only when the message was. */
  lemma SpoilerHidesWholeMessage(content: string)
    ensures content == [] ==> Reposted(content, true, true) == ""
    ensures content != [] ==> exists body :: Reposted(content, true, true) == "||" + body + "||" && NoOpenPair(body) && body != []
  {
    EscapedHasNoOpenPair(content);
    if content != [] {
      var body := EscapeBars(content);
      assert Reposted(content, true, true) == "||" + body + "||";
    }
  }

  /** The prefix post naming the author, with a caution when the message is explicit. */
  function PrefixText(t: Wording, f: Facts): string {
    (if f.explicit then t.caution else "") + "*" + MentionOf(f.message.author) + t.says
  }

  /** `resend_message`: the prefix post and the re-post go out, and then the re-post gets 🆘. */
  function Repost(t: Wording, f: Facts, smart: bool): (r: seq<Action<WState>>)
    ensures |r| == 2 && IsRepost(r[0]) && r[1] == Does(SosAdded) && RepostCount(r) == 1
    ensures !f.explicit ==> r[0].effect.content == f.message.content
    ensures f.explicit ==> (r[0].effect.content == [] <==> f.message.content == [])
    ensures f.explicit && f.message.content != [] ==> |r[0].effect.content| >= 4 && r[0].effect.content[..2] == "||"
    ensures f.explicit ==> t.caution <= r[0].effect.prefix
  {
    var r := [Does(Resent(PrefixText(t, f), Reposted(f.message.content, f.explicit, smart))), Does(SosAdded)];
    assert RepostCount(r[1..]) == 0 by {
      assert r[1..][1..] == [];
    }
    r
  }

  /** `send_report(outcome)`: a report saying whether the message ended up deleted, unless this is
      the dummy warning. */
  function Report(f: Facts, deleted: bool): (r: seq<Action<WState>>)
    ensures |r| <= 1 && RepostCount(r) == 0
    ensures Filed(f, r, deleted) <==> f.reports
    ensures !Filed(f, r, !deleted)
  {
    if f.reports then [Does(AutomatedReportSent(f.urgency, f.abuse, f.explicit, deleted))] else []
  }

  /** Whether the five-minute timer is still to fire, and whether the warning was answered (or
      lapsed). */
  datatype Config = Config(armed: bool, settled: bool)

  datatype Response = Response(config: Config, acts: seq<Action<WState>>)

  /** A report of this warning, saying whether the message ended up deleted. */
  predicate Filed(f: Facts, acts: seq<Action<WState>>, deleted: bool) {
    Does(AutomatedReportSent(f.urgency, f.abuse, f.explicit, deleted)) in acts
  }

  predicate IsRepost(a: Action<WState>) {
    a.Does? && a.effect.Resent?
  }

  /** How many re-posts `acts` make. */
  function RepostCount(acts: seq<Action<WState>>): nat {
    if acts == [] then 0 else (if IsRepost(acts[0]) then 1 else 0) + RepostCount(acts[1..])
  }

  lemma {:induction false} RepostCountAppend(a: seq<Action<WState>>, b: seq<Action<WState>>)
    ensures RepostCount(a + b) == RepostCount(a) + RepostCount(b)
  {
    if a != [] {
      RepostCountAppend(a[1..], b);
      assert (a + b)[1..] == a[1..] + b;
    } else {
      assert a + b == b;
    }
  }

  lemma {:induction false} NoRepostCounted(a: seq<Action<WState>>)
    requires forall k :: 0 <= k < |a| ==> !IsRepost(a[k])
    ensures RepostCount(a) == 0
  {
    if a != [] {
      NoRepostCounted(a[1..]);
    }
  }

  /** Leaving the author's list and cancelling the timer, then `after`; a failed removal raises
      instead, and the rest of the branch does not run. */
  function Leave(c: Config, removal: Option<string>, after: seq<Action<WState>>): (r: Response)
    requires RepostCount(after) == 0
    ensures RepostCount(r.acts) == 0
    ensures Does(Closed) in r.acts <==> removal.None?
    ensures r.config.settled && (r.config.armed <==> c.armed && removal.Some?)
    ensures forall a :: a in r.acts && a.Does? && a.effect.AutomatedReportSent? ==> a in after
  {
    var acts := if removal.None? then [Does(Closed), Does(TimerCancelled)] + after else [Does(Raised(removal.value))];
    if removal.None? then
      RepostCountAppend([Does(Closed), Does(TimerCancelled)], after);
      Response(Config(false, true), acts)
    else Response(c.(settled := true), acts)
  }

  /** The "yes" branch of `start`: re-post and report, then leave and point to the re-post. */
  function Accepted(t: Wording, f: Facts, c: Config, smart: bool, removal: Option<string>): (r: Response)
    ensures RepostCount(r.acts) == 1
    ensures Filed(f, r.acts, false) <==> f.reports
    ensures !Filed(f, r.acts, true)
    ensures Does(Closed) in r.acts <==> removal.None?
    ensures r.config.settled && (r.config.armed <==> c.armed && removal.Some?)
  {
    var sent := Repost(t, f, smart) + Report(f, false);
    NoRepostCounted(Report(f, false));
    NoRepostCounted([Says([Text(t.resent), Card(t.goTo)])]);
    var left := Leave(c, removal, [Says([Text(t.resent), Card(t.goTo)])]);
    RepostCountAppend(sent, left.acts);
    RepostCountAppend(Repost(t, f, smart), Report(f, false));
    Response(left.config, sent + left.acts)
  }

  /** The "no" branch of `start`: leave, report only with `always_report`, and thank the user. */
  function Declined(t: Wording, f: Facts, c: Config, removal: Option<string>): (r: Response)
    ensures RepostCount(r.acts) == 0
    ensures !Filed(f, r.acts, false)
    ensures Filed(f, r.acts, true) <==> f.reports && f.alwaysReport && removal.None?
    ensures Does(Closed) in r.acts <==> removal.None?
    ensures r.config.settled && (r.config.armed <==> c.armed && removal.Some?)
  {
    var after := (if f.alwaysReport then Report(f, true) else []) + [Says([Text(t.thanks)])];
    NoRepostCounted(after);
    Leave(c, removal, after)
  }

  /** `start(text)` for a reply that is not the introduction, as written: "yes" re-posts, reports
      and closes; "no" closes (reporting only with `always_report`); anything else gets a hint. */
  function Answer(t: Wording, f: Facts, c: Config, text: string, smart: bool, removal: Option<string>): (r: Response)
    ensures RepostCount(r.acts) == if Lower(text) in YES_KEYWORDS then 1 else 0
    ensures Filed(f, r.acts, false) <==> f.reports && Lower(text) in YES_KEYWORDS
    ensures Filed(f, r.acts, true) <==> f.reports && f.alwaysReport && Lower(text) in NO_KEYWORDS && removal.None?
    ensures Does(Closed) in r.acts <==> (Lower(text) in YES_KEYWORDS || Lower(text) in NO_KEYWORDS) && removal.None?
    ensures r.config.armed <==> c.armed && Does(Closed) !in r.acts
    ensures r.config.settled <==> c.settled || Lower(text) in YES_KEYWORDS || Lower(text) in NO_KEYWORDS
  {
    YesNoDisjoint();
    var low := Lower(text);
    if low in YES_KEYWORDS then Accepted(t, f, c, smart, removal)
    else if low in NO_KEYWORDS then Declined(t, f, c, removal)
    else
      NoRepostCounted([Says([Text(t.sorry)])]);
      Response(c, [Says([Text(t.sorry)])])
  }

  /** A reply as the dialogue takes it: once the warning is settled, its still-registered buttons
      (and anything else) are ignored. */
  function Reply(t: Wording, f: Facts, c: Config, text: string, smart: bool, removal: Option<string>): (r: Response)
    ensures c.settled ==> r.config == c && r.acts == []
    ensures !c.settled ==> r == Answer(t, f, c, text, smart, removal)
  {
    if c.settled then Response(c, []) else Answer(t, f, c, text, smart, removal)
  }

  /** `timeout_reponse`: the flow leaves the list, says the offer lapsed and reports only with
      `always_report`; the error of a failed removal escapes first. */
  function Lapsed(t: Wording, f: Facts, c: Config, removal: Option<string>): (r: Response)
    ensures !r.config.armed && r.config.settled
    ensures Does(Closed) in r.acts <==> removal.None?
    ensures Filed(f, r.acts, true) <==> f.reports && f.alwaysReport && removal.None?
    ensures !Filed(f, r.acts, false) && RepostCount(r.acts) == 0
  {
    var acts := if removal.None? then [Does(Closed), Says([Text(t.lapsed)])] + (if f.alwaysReport then Report(f, true) else [])
                else [Does(Raised(removal.value))];
    NoRepostCounted(acts);
    Response(Config(false, true), acts)
  }

  /** What reaches the dialogue: a reply (typed, or simulated by a button), or the timer firing;
      each with what removing the flow from its list would raise at that moment. */
  datatype Input = Typed(text: string, removal: Option<string>) | Timeout(removal: Option<string>)

  /** One input under `Reply`; the timer fires only while it is armed. */
  function Step(t: Wording, f: Facts, c: Config, e: Input, smart: bool): (r: Response)
    ensures c.settled ==> r.config.settled && (e.Typed? ==> r == Response(c, []))
    ensures !c.armed ==> !r.config.armed && (e.Timeout? ==> r == Response(c, []))
    ensures RepostCount(r.acts) <= if c.settled || e.Timeout? then 0 else 1
  {
    match e
    case Typed(text, removal) => Reply(t, f, c, text, smart, removal)
    case Timeout(removal) => if c.armed then Lapsed(t, f, c, removal) else Response(c, [])
  }

  /** The same input as the code handles it. */
  function StepAsWritten(t: Wording, f: Facts, c: Config, e: Input, smart: bool): (r: Response)
    ensures !c.settled || e.Timeout? ==> r == Step(t, f, c, e, smart)
    ensures e.Typed? && Lower(e.text) in YES_KEYWORDS ==> RepostCount(r.acts) == 1
    ensures c.settled ==> r.config.settled
    ensures !c.armed ==> !r.config.armed
  {
    match e
    case Typed(text, removal) => Answer(t, f, c, text, smart, removal)
    case Timeout(removal) => if c.armed then Lapsed(t, f, c, removal) else Response(c, [])
  }

  /** The inputs one after the other, the actions concatenated. */
  function Run(t: Wording, f: Facts, c: Config, es: seq<Input>, smart: bool, written: bool): (r: Response)
    ensures es == [] ==> r == Response(c, [])
    ensures c.settled ==> r.config.settled
    ensures !c.armed ==> !r.config.armed
    ensures c.settled && !written ==> RepostCount(r.acts) == 0
    decreases |es|
  {
    if es == [] then Response(c, [])
    else
      var r := if written then StepAsWritten(t, f, c, es[0], smart) else Step(t, f, c, es[0], smart);
      var rest := Run(t, f, r.config, es[1..], smart, written);
      RepostCountAppend(r.acts, rest.acts);
      Response(rest.config, r.acts + rest.acts)
  }

  /** However the replies, button presses and the timer interleave, the dialogue re-posts the
      message at most once, and never after it was settled. */
  lemma {:induction false} RepostsAtMostOnce(t: Wording, f: Facts, c: Config, es: seq<Input>, smart: bool)
    ensures RepostCount(Run(t, f, c, es, smart, false).acts) <= if c.settled then 0 else 1
    decreases |es|
  {
    if es != [] {
      var r := Step(t, f, c, es[0], smart);
      RepostsAtMostOnce(t, f, r.config, es[1..], smart);
      RepostCountAppend(r.acts, Run(t, f, r.config, es[1..], smart, false).acts);
      if es[0].Typed? && c.settled {
        NoRepostCounted(r.acts);
      }
    }
  }

  /** One input after another: the second starts from the configuration the first left. */
  lemma RunTwo(t: Wording, f: Facts, c: Config, e1: Input, e2: Input, smart: bool, written: bool)
    ensures var r1 := if written then StepAsWritten(t, f, c, e1, smart) else Step(t, f, c, e1, smart);
      var r2 := if written then StepAsWritten(t, f, r1.config, e2, smart) else Step(t, f, r1.config, e2, smart);
      Run(t, f, c, [e1, e2], smart, written) == Response(r2.config, r1.acts + r2.acts)
  {
    var es := [e1, e2];
    assert es[1..] == [e2];
    assert es[1..][1..] == [];
    var r1 := if written then StepAsWritten(t, f, c, e1, smart) else Step(t, f, c, e1, smart);
    var r2 := if written then StepAsWritten(t, f, r1.config, e2, smart) else Step(t, f, r1.config, e2, smart);
    assert Run(t, f, r1.config, es[1..], smart, written) == Response(r2.config, r2.acts + []);
    assert r2.acts + [] == r2.acts;
  }

  /** As written, the buttons outlive the warning: after the offer lapsed ("can no longer be
      sent") pressing ✅ still re-posts the message and files a report, and only then fails to
      leave the list; the dialogue as it should be ignores the press. */
  lemma ButtonsOutliveTheWarning(t: Wording, f: Facts, smart: bool)
    requires f.reports
    ensures var r := Run(t, f, Config(true, false), [Timeout(None), Typed("yes", Some("ValueError"))], smart, true);
      RepostCount(r.acts) == 1 && Filed(f, r.acts, false)
    ensures var r := Run(t, f, Config(true, false), [Timeout(None), Typed("yes", Some("ValueError"))], smart, false);
      RepostCount(r.acts) == 0 && !Filed(f, r.acts, false)
  {
    assert Lower("yes") == "yes";
    var a := Lapsed(t, f, Config(true, false), None);
    var b := Answer(t, f, a.config, "yes", smart, Some("ValueError"));
    RunTwo(t, f, Config(true, false), Timeout(None), Typed("yes", Some("ValueError")), smart, true);
    RunTwo(t, f, Config(true, false), Timeout(None), Typed("yes", Some("ValueError")), smart, false);
    RepostCountAppend(a.acts, b.acts);
    RepostCountAppend(a.acts, []);
  }

  /** As written, a typed "yes" leaves the buttons live, so pressing ✅ afterwards re-posts the
      message a second time. */
  lemma TypedYesThenButtonRepostsTwice(t: Wording, f: Facts, smart: bool)
    ensures RepostCount(Run(t, f, Config(true, false), [Typed("yes", None), Typed("yes", Some("ValueError"))], smart, true).acts) == 2
  {
    assert Lower("yes") == "yes";
    var y1 := Answer(t, f, Config(true, false), "yes", smart, None);
    var y2 := Answer(t, f, y1.config, "yes", smart, Some("ValueError"));
    RunTwo(t, f, Config(true, false), Typed("yes", None), Typed("yes", Some("ValueError")), smart, true);
    RepostCountAppend(y1.acts, y2.acts);
  }

  /** The posts a re-post creates: their ids come from the channel, their author is the bot. */
  datatype Posts = Posts(prefix: MessageId, replacement: MessageId, bot: UserId)

  /** A warning shown to the author of a flagged message: its flow engine, the client's table of
      flows it is listed in, the client's re-post bookkeeping, and its timer. */
  class SentWarning {
    const flow: Flow<WState>
    const table: Table
    const reposts: Reposts
    const key: FlowKey
    const facts: Facts
    const texts: Wording
    var armed: bool
    var settled: bool

    /** The flow is made with its urgency resolved (the caller lists it) and its timer armed. */
    constructor (facts: Facts, key: FlowKey, table: Table, reposts: Reposts)
      ensures this.facts == facts && this.key == key && this.table == table && this.reposts == reposts
      ensures texts == WORDING
      ensures fresh(flow) && flow.trace == [] && flow.Recorded() && flow.quitState.None?
      ensures Now() == Config(true, false)
    {
      this.facts, this.key, this.table, this.reposts, texts := facts, key, table, reposts, WORDING;
      flow := new Flow(START, None);
      armed, settled := true, false;
    }

    function Now(): Config
      reads this
    {
      Config(armed, settled)
    }

    /** What removing this flow from its author's list would raise. */
    function Removal(): Option<string>
      reads this, table
    {
      table.RemovalError(facts.message.author, key)
    }

    function PrefixPost(ids: Posts): Msg
      reads this
    {
      Msg(ids.prefix, ids.bot, PrefixText(texts, facts), [])
    }

    function ReplacementPost(ids: Posts, smart: bool): Msg
      reads this
    {
      Msg(ids.replacement, ids.bot, Reposted(facts.message.content, facts.explicit, smart), facts.message.attachments)
    }

    /** The step performed `r`: the flow is in `r.config`, the channel gained `r.acts`, and the
        table lost this flow exactly when the flow closed. */
    twostate predicate Performed(r: Response)
      reads this, flow, table
    {
      Now() == r.config
      && flow.trace == old(flow.trace) + r.acts
      && (old(flow.Recorded()) ==> flow.Recorded())
      && table.flows == (if Does(Closed) in r.acts then AfterClose(old(table.flows), facts.message.author, key) else old(table.flows))
      && table.pendingEdit == old(table.pendingEdit)
    }

    /** The re-post bookkeeping changed exactly when the message was re-posted. */
    twostate predicate Bookkept(r: Response, smart: bool, ids: Posts)
      reads this, reposts
    {
      if RepostCount(r.acts) > 0 then
        reposts.aliases == old(reposts.aliases)[ids.prefix := facts.message][ids.replacement := facts.message][facts.message.id := ReplacementPost(ids, smart)]
        && reposts.pairs == old(reposts.pairs)[ids.replacement := ids.prefix][ids.prefix := ids.replacement]
      else reposts.aliases == old(reposts.aliases) && reposts.pairs == old(reposts.pairs)
    }

    /** The transition to START that the constructor schedules. */
    method Begin()
      modifies flow
      ensures flow.trace == old(flow.trace) + [Says(Intro(texts, facts))] && (old(flow.Recorded()) ==> flow.Recorded())
      ensures flow.state == old(flow.state) && flow.prequit == old(flow.prequit)
    {
      flow.Say(Intro(texts, facts));
    }

    /** `forward_message(text)`, the text stripped: there is no quit state, so it goes to `start`,
        unless the warning is already settled. */
    method ForwardMessage(text: string, smart: bool, ids: Posts)
      modifies this, flow, table, reposts
      ensures Performed(Reply(texts, facts, old(Now()), text, smart, old(Removal())))
      ensures Bookkept(Reply(texts, facts, old(Now()), text, smart, old(Removal())), smart, ids)
    {
      if settled {
        return;
      }
      Start(text, smart, ids);
    }

    /** `start(text)`. */
    method Start(text: string, smart: bool, ids: Posts)
      modifies this, flow, table, reposts
      ensures Performed(Answer(texts, facts, old(Now()), text, smart, old(Removal())))
      ensures Bookkept(Answer(texts, facts, old(Now()), text, smart, old(Removal())), smart, ids)
    {
      YesNoDisjoint();
      var low := Lower(text);
      if low in YES_KEYWORDS {
        AcceptWarning(smart, ids);
      } else if low in NO_KEYWORDS {
        DeclineWarning();
      } else {
        flow.Say([Text(texts.sorry)]);
      }
    }

    /** The "yes" branch of `start`. */
    method AcceptWarning(smart: bool, ids: Posts)
      modifies this, flow, table, reposts
      ensures Performed(Accepted(texts, facts, old(Now()), smart, old(Removal())))
      ensures Bookkept(Accepted(texts, facts, old(Now()), smart, old(Removal())), smart, ids)
    {
      Publish(smart, ids);
      PointToRepost();
    }

    /** The end of the "yes" branch: leave, then point to the re-post. */
    method PointToRepost()
      modifies this, flow, table
      ensures Performed(Leave(old(Now()), old(Removal()), [Says([Text(texts.resent), Card(texts.goTo)])]))
    {
      var ok := Settle();
      if ok {
        flow.Say([Text(texts.resent), Card(texts.goTo)]);
      }
    }

    /** The first two calls of the "yes" branch: `resend_message` and then `send_report(True)`. */
    method Publish(smart: bool, ids: Posts)
      modifies flow, reposts
      ensures flow.trace == old(flow.trace) + (Repost(texts, facts, smart) + Report(facts, false))
      ensures old(flow.Recorded()) ==> flow.Recorded()
      ensures flow.state == old(flow.state) && flow.prequit == old(flow.prequit)
      ensures reposts.aliases == old(reposts.aliases)[ids.prefix := facts.message][ids.replacement := facts.message][facts.message.id := ReplacementPost(ids, smart)]
      ensures reposts.pairs == old(reposts.pairs)[ids.replacement := ids.prefix][ids.prefix := ids.replacement]
    {
      ResendMessage(smart, ids);
      SendReport(false);
    }

    /** The "no" branch of `start`. */
    method DeclineWarning()
      modifies this, flow, table
      ensures Performed(Declined(texts, facts, old(Now()), old(Removal())))
    {
      var ok := Settle();
      if ok {
        if facts.alwaysReport {
          SendReport(true);
        }
        flow.Say([Text(texts.thanks)]);
      }
    }

    /** What both branches of `start` do first: mark the warning settled, `close()` (leave the
        author's list, which raises when the flow is not listed) and then cancel the timer. */
    method Settle() returns (ok: bool)
      modifies this, flow, table
      ensures ok <==> old(Removal()).None?
      ensures settled && (armed <==> old(armed) && !ok)
      ensures flow.trace == old(flow.trace) + (if ok then [Does(Closed), Does(TimerCancelled)] else [Does(Raised(old(Removal()).value))])
      ensures old(flow.Recorded()) ==> flow.Recorded()
      ensures flow.state == old(flow.state) && flow.prequit == old(flow.prequit)
      ensures table.flows == if ok then AfterClose(old(table.flows), facts.message.author, key) else old(table.flows)
      ensures table.pendingEdit == old(table.pendingEdit)
    {
      settled := true;
      var err := table.Remove(facts.message.author, key);
      if err.Some? {
        flow.Do(Raised(err.value));
        return false;
      }
      flow.Do(Closed);
      armed := false;
      flow.Do(TimerCancelled);
      return true;
    }

    /** `resend_message`: the two posts go out, the bookkeeping records them, and the re-post
        gets 🆘. */
    method ResendMessage(smart: bool, ids: Posts)
      modifies flow, reposts
      ensures flow.trace == old(flow.trace) + Repost(texts, facts, smart) && (old(flow.Recorded()) ==> flow.Recorded())
      ensures flow.state == old(flow.state) && flow.prequit == old(flow.prequit)
      ensures reposts.aliases == old(reposts.aliases)[ids.prefix := facts.message][ids.replacement := facts.message][facts.message.id := ReplacementPost(ids, smart)]
      ensures reposts.pairs == old(reposts.pairs)[ids.replacement := ids.prefix][ids.prefix := ids.replacement]
    {
      var content := facts.message.content;
      if facts.explicit {
        if smart {
          content := EscapeBars(content);
        }
        content := if content != [] then "||" + content + "||" else "";
      }
      flow.Do(Resent(PrefixText(texts, facts), content));
      reposts.Record(facts.message, PrefixPost(ids), ReplacementPost(ids, smart));
      flow.Do(SosAdded);
    }

    /** `send_report(outcome)`, `deleted` being `not outcome`. */
    method SendReport(deleted: bool)
      modifies flow
      ensures flow.trace == old(flow.trace) + Report(facts, deleted) && (old(flow.Recorded()) ==> flow.Recorded())
      ensures flow.state == old(flow.state) && flow.prequit == old(flow.prequit)
    {
      if facts.reports {
        flow.Do(AutomatedReportSent(facts.urgency, facts.abuse, facts.explicit, deleted));
      }
    }

    /** `timeout_reponse`, called by the event loop while the timer is armed. */
    method TimeoutResponse()
      requires armed
      modifies this, flow, table
      ensures Performed(Lapsed(texts, facts, old(Now()), old(Removal())))
    {
      armed, settled := false, true;
      var err := table.Remove(facts.message.author, key);
      if err.Some? {
        flow.Do(Raised(err.value));
        return;
      }
      flow.Do(Closed);
      flow.Say([Text(texts.lapsed)]);
      if facts.alwaysReport {
        SendReport(true);
      }
    }
  }

  /** After a re-post, reporting either post reports the original: a report dialogue opened on
      the replacement or on the prefix starts from the original message. */
  lemma RepostIsReportedAsOriginal(aliases: map<MessageId, Msg>, pairs: map<MessageId, MessageId>,
                                   original: Msg, prefix: Msg, replacement: Msg, w: UserReportFlow.World)
    requires original.id != prefix.id && original.id != replacement.id && prefix.id != replacement.id
    requires w.aliases == aliases[prefix.id := original][replacement.id := original][original.id := replacement]
    requires w.paired == pairs[replacement.id := prefix.id][prefix.id := replacement.id].Keys
    ensures UserReportFlow.StartForm(Some(replacement), w).Ok?
    ensures UserReportFlow.StartForm(Some(replacement), w).value.message == Some(original)
    ensures UserReportFlow.StartForm(Some(replacement), w).value.replacement == Some(replacement)
    ensures UserReportFlow.StartForm(Some(prefix), w).Ok?
    ensures UserReportFlow.StartForm(Some(prefix), w).value.message == Some(original)
  {
  }
}
