/** `UserReportCreationFlow`: the questionnaire a user goes through to report a message. It asks for
    a message link, an abuse type (by number or keyword), then, depending on the type, whether the
    reporter is the victim (and who is), or whether the situation is urgent, then for comments, and
    finally shows the report and sends it. Cancelling leads to a quit question whose "no" goes back.

    `Respond` states what one reply does: the new state and form, and the actions said and done in
    order. The class `ReportCreation` performs the same steps on its fields and is proved to match. */
module UserReportFlow {
  import opened Wrappers
  import opened Text
  import opened Consts
  import opened Reactions
  import opened FlowEngine
  import opened Parsing
  import opened FlowTable
  import Helpers

  datatype UState =
    | REPORT_START | AWAITING_MESSAGE_LINK | AWAITING_ABUSE_TYPE | ADD_COMMENT | CHECK_IF_VICTIM
    | ASK_FOR_VICTIM | SUICIDE_CHECK | CURRENT_EVENTS_CHECK | FINALIZE_REPORT | FINISH_REPORT
    | REPORT_QUIT

  /** What the dialogue looks up in the client: messages behind links, the alias of a message the
      bot re-posted (`message_aliases`, keyed by the ids in `message_pairs`), and the members of
      every guild the bot is in. */
  datatype World = World(
    dir: Directory,
    aliases: map<MessageId, Msg>,
    paired: set<MessageId>,
    guilds: seq<seq<Helpers.Member>>)

  /** The report being filled in. `victim` and `urgent` are None while the question was never
      asked (the attribute does not exist yet); `victim == Some(None)` means the reporter skipped. */
  datatype Form = Form(
    message: Option<Msg>,
    replacement: Option<Msg>,
    abuse: Option<AbuseType>,
    victim: Option<Option<Helpers.Member>>,
    urgent: Option<bool>,
    comments: Option<string>,
    submitted: bool)

  datatype Config = Config(control: Control<UState>, form: Form)

  /** The configuration after a reply, and what the flow said and did meanwhile. */
  datatype Response = Response(config: Config, acts: seq<Action<UState>>)

  const START_TEXT: string := "\n" +
                              "                Thank you for starting the reporting " +
                              "process.\n" +
                              "                You can say `help` or `?` at any step " +
                              "for more information.\n" +
                              "                Say `cancel` or `quit` at any time to " +
                              "cancel your report.\n" +
                              "            "
  const LINK_HELP: string := "\n" +
                             "        Select a message to report and paste the link " +
                             "here.\n" +
                             "        You can obtain a message's link by " +
                             "right-clicking the message and " +
                             "clicking `Copy Message Link`.\n" +
                             "    "
  const LINK_PROMPT: string := "\n" +
                               "                Please copy and paste the link to the " +
                               "message you want to report.\n" +
                               "                You can obtain this link by " +
                               "right-clicking the message and " +
                               "clicking Copy Message Link.\n" +
                               "            "
  const UNREADABLE: string := "\n" +
                              "                    I'm sorry, I couldn't read that link.\n" +
                              "                    Please try again or say `cancel` to " +
                              "cancel.\n" +
                              "                "
  const IN_DMS: string := "\n" +
                          "                    It looks like you specified a " +
                          "message in your DMs (notice " +
                          "the `@me` in the link). I can only access messages in " +
                          "guilds I am a part of.\n" +
                          "                    Please try again or say `cancel` to " +
                          "cancel.\n" +
                          "                "
  const NO_GUILD: string := "\n" +
                            "                        I cannot accept reports of " +
                            "messages from guilds that I'm not in.\n" +
                            "                        Please have the guild owner add " +
                            "me to the guild and try " +
                            "again, or say `cancel` to cancel.\n" +
                            "                    "
  const NO_CHANNEL: string := "\n" +
                              "                    It seems this channel was deleted " +
                              "or never existed.\n" +
                              "                    Please try again or say `cancel` to " +
                              "cancel.\n" +
                              "                "
  const NO_MESSAGE: string := "\n" +
                              "                    It seems this message was deleted " +
                              "or never existed.\n" +
                              "                    Please try again or say `cancel` to " +
                              "cancel.\n" +
                              "                "
  const FOUND: string := "I found this message:"
  const ABUSE_HELP: string := "Enter a keyword from one of the abuse types above, or " +
                              "select one of the buttons to choose it."
  const ABUSE_MENU: string := "\n" +
                              "                    Please tell us what you think is " +
                              "inappropriate about this message:\n" +
                              "                    \U{2003}1. Misinformation or Spam\n" +
                              "                    \U{2003}2. Hateful Content\n" +
                              "                    \U{2003}3. Sexual Content\n" +
                              "                    \U{2003}4. Harassment\n" +
                              "                    \U{2003}5. Bullying\n" +
                              "                    \U{2003}6. Harmful/Dangerous Content\n" +
                              "                    \U{2003}7. Promoting Violence or " +
                              "Terrorism\n" +
                              "                    \U{2003}8. Child Abuse\n" +
                              "                    You can enter a keyword to choose " +
                              "one, or select a button below.\n" +
                              "                "
  const EMERGENCY_TITLE: string := "Call 911 in an emergency."
  const EMERGENCY_TEXT: string := "We will review your report as soon as we can, but " +
                                  "calling 911 or other local " +
                                  "authorities is the fastest and most effective way to " +
                                  "handle emergencies."
  const HATE_NOTE: string := "Please note that content that incites violence should " +
                             "be reported as Promoting " +
                             "Violence or Terrorism."
  const SEXUAL_NOTE: string := "Please note that any sexual content involving minors " +
                               "should be reported as Child Abuse."
  const ABUSE_SORRY: string := "Sorry, I didn't understand your reply. Try different " +
                               "words, or click one of the buttons above."
  const VICTIM_HELP: string := "\n" +
                               "        Select whether you are the victimized user. If " +
                               "you are submitting this " +
                               "report on someone else's behalf, select no (you'll have " +
                               "a chance to specify who).\n" +
                               "        You can type `yes` or `no`, or select one of " +
                               "the buttons above.\n" +
                               "    "
  const TARGET_QUESTION: string := "Does the content target you specifically?"
  const YES_NO_SORRY: string := "Sorry, I didn't understand that. Please reply with " +
                                "`yes` or `no` or click one " +
                                "of the buttons above."
  const SEARCH_HELP: string := "\n" +
                               "        Type a username to search for them. The `@` at " +
                               "the beginning isn't " +
                               "necessary (since they won't appear in DMs).\n" +
                               "        You can also search by their nickname in a guild.\n" +
                               "    "
  const SEARCH_PROMPT: string := "\n" +
                                 "                    If you want to specify the user " +
                                 "being victimized, you can " +
                                 "do so here. This will help us review your report faster.\n" +
                                 "                    Otherwise, you can push the " +
                                 "checkmark below, or say `done` " +
                                 "to leave this empty.\n" +
                                 "                "
  const SUICIDE_HELP: string := "\n" +
                                "        Please let us know whether this situation " +
                                "requires immediate action. " +
                                "including if someone is in immediate danger of " +
                                "committing suicide or self-harm.\n" +
                                "        You can type `yes` or `no`, or select one of " +
                                "the buttons above.\n" +
                                "    "
  const SUICIDE_QUESTION: string := "Does the content contain any self-harm or suicide that " +
                                    "requires immediate action?"
  const CALL_TITLE: string := "Call 911."
  const CALL_TEXT: string := "We will do what we can to reach out to this person on " +
                             "our end as soon as we " +
                             "can, but please take immediate action or let someone " +
                             "know who can. " +
                             "Time-sensitive emergencies can be best handled by local " +
                             "authorities."
  const EVENTS_HELP: string := "\n" +
                               "        Please let us know whether this situation " +
                               "requires immediate action.\n" +
                               "        You can type `yes` or `no`, or select one of " +
                               "the buttons above.\n" +
                               "    "
  const EVENTS_QUESTION: string := "Does the content contain any events that are currently " +
                                   "happening and require immediate action?"
  const COMMENT_HELP: string := "Enter additional comments to submit alongside your " +
                                "report, or type `done` to skip this step."
  const COMMENT_PROMPT: string := "\n" +
                                  "                    If you have any comments you want " +
                                  "to add to your report, " +
                                  "enter them now.\n" +
                                  "                    Otherwise, you can push the " +
                                  "checkmark below, or say `done`.\n" +
                                  "                "
  const FINALIZE_HELP: string := "Review your report above and type `done` when you're " +
                                 "ready to submit."
  const PREVIEW_INTRO: string := "This is what your report looks like so far:"
  const PRESS_DONE: string := "Press the checkmark below, or type `done` when you're " +
                              "ready to send it."
  const FINALIZE_SORRY: string := "Sorry, I didn't understand that. Please reply with " +
                                  "`done` when you're ready to " +
                                  "submit your report, or click the checkmark below."
  const THANKS: string := "Thank you for reporting! You will receive a message " +
                          "when someone on the content " +
                          "moderation team has reviewed your report."
  const QUIT_HELP: string := "\n" +
                             "        Decide whether you really want to cancel the " +
                             "reporting process.\n" +
                             "        You can type `yes` or `no`, or select one of " +
                             "the buttons above.\n" +
                             "    "
  const QUIT_QUESTION: string := "Are you sure you want to quit the reporting process? " +
                                 "All the progress you've made will be lost."
  const CANCELED: string := "Your report has been canceled."
  const NOT_SUBMITTED: string := "This report has not yet been submitted."
  /** The fixed texts of the dialogue. The dialogue's functions take them as a parameter, and the
      flow is created with `WORDING`, which holds the texts of the original. */
  datatype Wording = Wording(
    start: string,
    linkHelp: string,
    linkPrompt: string,
    unreadable: string,
    inDms: string,
    noGuild: string,
    noChannel: string,
    noMessage: string,
    found: string,
    abuseHelp: string,
    abuseMenu: string,
    emergencyTitle: string,
    emergencyText: string,
    hateNote: string,
    sexualNote: string,
    abuseSorry: string,
    victimHelp: string,
    targetQuestion: string,
    yesNoSorry: string,
    searchHelp: string,
    searchPrompt: string,
    suicideHelp: string,
    suicideQuestion: string,
    callTitle: string,
    callText: string,
    eventsHelp: string,
    eventsQuestion: string,
    commentHelp: string,
    commentPrompt: string,
    finalizeHelp: string,
    previewIntro: string,
    pressDone: string,
    finalizeSorry: string,
    thanks: string,
    quitHelp: string,
    quitQuestion: string,
    canceled: string,
    notSubmitted: string,
    multipleResults: string,
    searchBoth: string,
    notFound: string,
    notFoundAdvice: string)

  const WORDING: Wording := Wording(
    START_TEXT,
    LINK_HELP,
    LINK_PROMPT,
    UNREADABLE,
    IN_DMS,
    NO_GUILD,
    NO_CHANNEL,
    NO_MESSAGE,
    FOUND,
    ABUSE_HELP,
    ABUSE_MENU,
    EMERGENCY_TITLE,
    EMERGENCY_TEXT,
    HATE_NOTE,
    SEXUAL_NOTE,
    ABUSE_SORRY,
    VICTIM_HELP,
    TARGET_QUESTION,
    YES_NO_SORRY,
    SEARCH_HELP,
    SEARCH_PROMPT,
    SUICIDE_HELP,
    SUICIDE_QUESTION,
    CALL_TITLE,
    CALL_TEXT,
    EVENTS_HELP,
    EVENTS_QUESTION,
    COMMENT_HELP,
    COMMENT_PROMPT,
    FINALIZE_HELP,
    PREVIEW_INTRO,
    PRESS_DONE,
    FINALIZE_SORRY,
    THANKS,
    QUIT_HELP,
    QUIT_QUESTION,
    CANCELED,
    NOT_SUBMITTED,
    "There were multiple results for your search:\n",
    "\nPlease search using both the **Username** *and* " +
    "#Discriminator (e.g., `",
    "\n                        I couldn't find any users " +
    "with the user name `",
    "`. Only users in guilds we are both a part of are " +
    "searchable.\n" +
    "                        Please try again or say `done` " +
    "to skip this step.\n" +
    "                    ")

  const SELECTED: seq<string> := [
    "You selected __1. Misinformation or Spam__.",
    "You selected: __2. Hateful Content__.",
    "You selected: __3. Sexual Content__.",
    "You selected: __4. Harassment__.",
    "You selected __5. Bullying__.",
    "You selected __6. Harmful or Dangerous Content__.",
    "You selected: __7. Promoting Violence or Terrorism__.",
    "You selected: __8. Child Abuse__."
  ]
  const SPAM_WORDS: seq<string> := ["misinformation", "disinformation", "spam", "misinfo", "disinfo", "information", "info"]
  const HATE_WORDS: seq<string> := ["hateful", "hate", "hatred", "racism", "racist", "sexist", "sexism"]
  const SEXUAL_WORDS: seq<string> := ["sexual", "sex", "nude", "nudity", "naked"]
  const HARASS_WORDS: seq<string> := ["harassment", "harass", "harassing"]
  const BULLYING_WORDS: seq<string> := ["bullying", "bully", "bullies", "cyberbullying", "cyberbully", "cyberbullies"]
  const HARMFUL_WORDS: seq<string> := ["harmful", "dangerous", "harm", "danger", "self-harm", "suicide", "suicidal"]
  const VIOLENCE_WORDS: seq<string> :=
    ["violence", "violent", "terrorism", "terror", "terrorist", "promote", "incite", "inciting", "incites"]
  const CSAM_WORDS: seq<string> := ["child", "children", "kid", "kids", "minor", "minors", "abuse", "csam"]

  /** The keywords of each menu entry, in menu order. */
  const ABUSE_GROUPS: seq<seq<string>> :=
    [SPAM_WORDS, HATE_WORDS, SEXUAL_WORDS, HARASS_WORDS, BULLYING_WORDS, HARMFUL_WORDS, VIOLENCE_WORDS, CSAM_WORDS]

  /** The abuse type each keyword group (and each number 1 to 8) selects. */
  const ABUSE_ORDER: seq<AbuseType> := ALL_ABUSE_TYPES

  /** Where the questionnaire goes once the abuse type is known. */
  function AfterAbuse(a: AbuseType): (r: UState)
    ensures r in {ADD_COMMENT, CHECK_IF_VICTIM, SUICIDE_CHECK, CURRENT_EVENTS_CHECK}
  {
    match a
    case SPAM => ADD_COMMENT
    case HATEFUL => ADD_COMMENT
    case SEXUAL => ADD_COMMENT
    case HARASS => CHECK_IF_VICTIM
    case BULLYING => CHECK_IF_VICTIM
    case HARMFUL => SUICIDE_CHECK
    case VIOLENCE => CURRENT_EVENTS_CHECK
    case CSAM => CURRENT_EVENTS_CHECK
  }

  /** What is said when an abuse type is selected: the selection, then a note or the emergency
      warning for the types that have one. */
  function SelectionReply(t: Wording, k: nat): (r: seq<Output<UState>>)
    requires k < 8
    ensures |r| >= 1 && r[0] == Text(SELECTED[k])
    ensures |r| == 1 <==> k == 0 || k == 3
    ensures Alert(t.emergencyTitle, t.emergencyText) in r <==> k >= 4
  {
    var emergency := Alert(t.emergencyTitle, t.emergencyText);
    [Text(SELECTED[k])]
    + (if k == 1 then [Card(t.hateNote)]
       else if k == 2 then [Card(t.sexualNote)]
       else if k >= 4 then [emergency]
       else [])
  }

  /** The help of each state decorated with `help_message`. */
  function HelpOf(t: Wording, s: UState): seq<string> {
    match s
    case AWAITING_MESSAGE_LINK => [t.linkHelp]
    case AWAITING_ABUSE_TYPE => [t.abuseHelp]
    case CHECK_IF_VICTIM => [t.victimHelp]
    case ASK_FOR_VICTIM => [t.searchHelp]
    case SUICIDE_CHECK => [t.suicideHelp]
    case CURRENT_EVENTS_CHECK => [t.eventsHelp]
    case ADD_COMMENT => [t.commentHelp]
    case FINALIZE_REPORT => [t.finalizeHelp]
    case REPORT_QUIT => [t.quitHelp]
    case REPORT_START => []
    case FINISH_REPORT => []
  }

  /** States whose handler answers the help keywords. */
  predicate HasHelp(s: UState) {
    s != REPORT_START && s != FINISH_REPORT
  }

  function Mention(m: Helpers.Member): string {
    MentionOf(m.id)
  }

  function MemberLine(m: Helpers.Member): string {
    Mention(m) + " \U{2013} **" + m.displayName + "**#" + m.discriminator
  }

  /** The numbered list of the (at most ten) members a search found. */
  function NumberedMembers(ms: seq<Helpers.Member>, from: nat): seq<string>
    decreases |ms|
  {
    if ms == [] then []
    else ["\U{2003}" + DecimalString(from) + ". " + MemberLine(ms[0])] + NumberedMembers(ms[1..], from + 1)
  }

  /** The first ten matches, numbered, between the texts around them. */
  function AmbiguousText(t: Wording, ms: seq<Helpers.Member>, reporter: Helpers.Member): (r: string)
    ensures t.multipleResults <= r
    ensures var tail := reporter.name + "#" + reporter.discriminator + "`).";
      |r| >= |tail| && r[|r| - |tail|..] == tail
  {
    var shown := if |ms| > 10 then ms[..10] else ms;
    t.multipleResults + Join(NumberedMembers(shown, 1), "\n")
    + t.searchBoth + reporter.name + "#" + reporter.discriminator + "`)."
  }

  function NotFoundText(t: Wording, query: string): (r: string)
    ensures |r| == |t.notFound| + |query| + |t.notFoundAdvice|
    ensures r[..|t.notFound|] == t.notFound && r[|t.notFound|..|t.notFound| + |query|] == query
  {
    t.notFound + query + t.notFoundAdvice
  }

  /** The fields of `as_embed`: abuse type, message text, victim and urgency when they were asked,
      and the comments. */
  function ReportFields(f: Form): (r: seq<(string, string)>)
    ensures |r| == 3 + (if f.victim.Some? then 1 else 0) + (if f.urgent.Some? then 1 else 0)
    ensures r[0].0 == "Abuse Type" && r[1].0 == "Message" && r[|r| - 1].0 == "Additional Comments"
    ensures f.abuse.None? <==> r[0].1 == "*[Unspecified]*"
    ensures r[|r| - 1].1 == if f.comments.None? then "*[None]*" else f.comments.value
    ensures f.victim.Some? ==> r[2].0 == "Victimized User"
    ensures f.urgent.Some? ==> r[|r| - 2] == ("Urgent", if f.urgent.value then "Yes" else "No")
  {
    [("Abuse Type", if f.abuse.Some? then f.abuse.value.Value() else "*[Unspecified]*"),
     ("Message", if f.message.Some? && f.message.value.content != "" then f.message.value.content else "*[No text]*")]
    + (if f.victim.Some? then [("Victimized User", if f.victim.value.Some? then Mention(f.victim.value.value) else "*[Unspecified]*")] else [])
    + (if f.urgent.Some? then [("Urgent", if f.urgent.value then "Yes" else "No")] else [])
    + [("Additional Comments", if f.comments.None? then "*[None]*" else f.comments.value)]
  }

  /** The guilds the reporter is a member of. */
  function CommonGuilds(guilds: seq<seq<Helpers.Member>>, reporter: UserId): (r: seq<seq<Helpers.Member>>)
    ensures forall g :: g in r <==> g in guilds && HasMember(g, reporter)
  {
    if guilds == [] then []
    else
      var g := guilds[|guilds| - 1];
      assert guilds == guilds[..|guilds| - 1] + [g];
      CommonGuilds(guilds[..|guilds| - 1], reporter) + (if HasMember(g, reporter) then [g] else [])
  }

  /** `discord.utils.get(guild.members, id=user) is not None`. */
  predicate HasMember(g: seq<Helpers.Member>, user: UserId) {
    exists m :: m in g && m.id == user
  }

  /** The outcome of a victim search. */
  datatype Search = Selected(member: Helpers.Member) | Ambiguous(matches: seq<Helpers.Member>) | NotFound

  /** The search as intended: the first guild with any match decides; guilds without one are
      passed over, and only when no guild has a match is the user not found. */
  function SearchGuilds(guilds: seq<seq<Helpers.Member>>, query: string): (r: Search)
    ensures r.NotFound? <==> forall j :: 0 <= j < |guilds| ==> Helpers.FindUsersFixed(guilds[j], query) == []
    ensures r.Selected? ==> exists j :: 0 <= j < |guilds| && Helpers.FindUsersFixed(guilds[j], query) == [r.member]
    ensures r.Ambiguous? ==> |r.matches| >= 2 && exists j :: 0 <= j < |guilds| && Helpers.FindUsersFixed(guilds[j], query) == r.matches
  {
    if guilds == [] then NotFound
    else
      var ms := Helpers.FindUsersFixed(guilds[0], query);
      var rest := SearchGuilds(guilds[1..], query);
      assert forall j :: 1 <= j < |guilds| ==> guilds[j] == guilds[1..][j - 1];
      if |ms| == 1 then Selected(ms[0])
      else if |ms| >= 2 then Ambiguous(ms)
      else rest
  }

  /** The loop of `ask_for_victim` AS WRITTEN: a guild with one match selects that member and the
      loop goes on; the first guild with no match, or with several, ends the search with that
      answer. The result is the members selected on the way and the answer the loop returned with
      (None when it ran out of guilds). */
  function SearchGuildsAsWritten(guilds: seq<seq<Helpers.Member>>, query: string): (r: (seq<Helpers.Member>, Option<Search>))
    ensures |r.0| <= |guilds| && (r.1.None? <==> |r.0| == |guilds|)
    ensures forall j :: 0 <= j < |r.0| ==> Helpers.FindUsers(guilds[j], query) == [r.0[j]]
    ensures r.1.Some? ==> var ms := Helpers.FindUsers(guilds[|r.0|], query);
      (r.1.value == NotFound <==> ms == []) && (r.1.value != NotFound ==> r.1.value == Ambiguous(ms) && |ms| >= 2)
    decreases |guilds|
  {
    if guilds == [] then ([], None)
    else
      var ms := Helpers.FindUsers(guilds[0], query);
      if |ms| == 1 then
        var rest := SearchGuildsAsWritten(guilds[1..], query);
        ([ms[0]] + rest.0, rest.1)
      else if |ms| >= 2 then ([], Some(Ambiguous(ms)))
      else ([], Some(NotFound))
  }

  /** The yes/no question of a state, with its buttons frozen in that state. */
  function YesNo(question: string, s: UState): seq<Output<UState>> {
    [Text(question), YesButton(s), NoButton(s)]
  }

  /** `finish_report` and the "yes" of `report_quit`: the flow removes itself from the reporter's
      list, which raises when it is not there. */
  function Close(removal: Option<string>): Action<UState> {
    if removal.None? then Does(Closed) else Does(Raised(removal.value))
  }

  /** `a`, then the step `r`. */
  function Then(a: Action<UState>, r: Response): Response {
    Response(r.config, [a] + r.acts)
  }

  /** `finish_report`: the flow leaves the reporter's list and thanks them. */
  function Finished(t: Wording, removal: Option<string>): seq<Action<UState>> {
    if removal.None? then [Does(Closed), Says([Text(t.thanks)])] else [Close(removal)]
  }

  /** `transition_to_state(s)`: the state becomes `s` and its introduction runs. Only
      REPORT_START moves on, to the link question or (when the message is known) the abuse type. */
  function Transition(t: Wording, c: Config, s: UState, removal: Option<string>): (r: Response)
    ensures r.config.form == c.form && r.config.control.prequit == c.control.prequit
    ensures r.config.control.state ==
      if s != REPORT_START then s
      else if c.form.message.Some? then AWAITING_ABUSE_TYPE else AWAITING_MESSAGE_LINK
    ensures (Does(Closed) in r.acts) ==> s == FINISH_REPORT && removal.None?
    ensures !Sends(r.acts)
    decreases if s == REPORT_START then 1 else 0
  {
    var c1 := Config(Control(s, c.control.prequit), c.form);
    match s
    case REPORT_START =>
      Then(Says([Text(t.start)]), Transition(t, c1, if c.form.message.Some? then AWAITING_ABUSE_TYPE else AWAITING_MESSAGE_LINK, removal))
    case FINISH_REPORT => Response(c1, Finished(t, removal))
    case _ => Response(c1, [Says(Intro(t, s, c.form))])
  }

  /** What the handler of `s` says when it is introduced, for the states whose introduction only
      talks; its buttons are frozen in `s`. */
  function Intro(t: Wording, s: UState, f: Form): (r: seq<Output<UState>>)
    ensures r == [] <==> s == REPORT_START || s == FINISH_REPORT
    ensures s in {CHECK_IF_VICTIM, SUICIDE_CHECK, CURRENT_EVENTS_CHECK, REPORT_QUIT} ==> r[1..] == [YesButton(s), NoButton(s)]
    ensures s in {ADD_COMMENT, ASK_FOR_VICTIM, FINALIZE_REPORT} ==> r[|r| - 1] == DoneButton(s)
    ensures s == FINALIZE_REPORT ==> |r| == 4 && r[1].Fields? && r[1].fields == ReportFields(f) && (r[1].footer == "" <==> f.submitted || t.notSubmitted == "")
  {
    match s
    case AWAITING_MESSAGE_LINK => [Text(t.linkPrompt)]
    case AWAITING_ABUSE_TYPE => AbuseMenu(t)
    case ADD_COMMENT => [Text(t.commentPrompt), DoneButton(ADD_COMMENT)]
    case CHECK_IF_VICTIM => YesNo(t.targetQuestion, CHECK_IF_VICTIM)
    case ASK_FOR_VICTIM => [Text(t.searchPrompt), DoneButton(ASK_FOR_VICTIM)]
    case SUICIDE_CHECK => YesNo(t.suicideQuestion, SUICIDE_CHECK)
    case CURRENT_EVENTS_CHECK => YesNo(t.eventsQuestion, CURRENT_EVENTS_CHECK)
    case FINALIZE_REPORT =>
      [Text(t.previewIntro), Fields(ReportFields(f), if f.submitted then "" else t.notSubmitted), Text(t.pressDone), DoneButton(FINALIZE_REPORT)]
    case REPORT_QUIT => YesNo(t.quitQuestion, REPORT_QUIT)
    case REPORT_START => []
    case FINISH_REPORT => []
  }

  /** The introduction of AWAITING_ABUSE_TYPE: the menu and the keycaps 1 to 8. */
  function AbuseMenu(t: Wording): (r: seq<Output<UState>>)
    ensures |r| == 9 && r[0] == Text(t.abuseMenu)
    ensures forall i :: 1 <= i <= 8 ==> r[i] == IndexButton(AWAITING_ABUSE_TYPE, i)
  {
    [Text(t.abuseMenu)] + seq(8, i requires 0 <= i < 8 => IndexButton(AWAITING_ABUSE_TYPE, i + 1))
  }

  /** `forward_message(text)` with the text already stripped: a cancel keyword diverts to the quit
      question (keeping the snapshot when already there); anything else goes to the handler. */
  function Respond(t: Wording, c: Config, text: string, w: World, reporter: Helpers.Member, removal: Option<string>): (r: Response)
    ensures Lower(text) in CANCEL_KEYWORDS ==> r.config.control.state == REPORT_QUIT && r.config.form == c.form && !Sends(r.acts)
    ensures Lower(text) in CANCEL_KEYWORDS && c.control.state != REPORT_QUIT ==> Reverted(r.config.control) == Some(Control(c.control.state, None))
    ensures Lower(text) in CANCEL_KEYWORDS && c.control.state == REPORT_QUIT ==> r.config == c
    ensures Lower(text) !in CANCEL_KEYWORDS ==> r == Handle(t, c, text, w, reporter, removal)
  {
    if Lower(text) in CANCEL_KEYWORDS then
      Response(Config(CancelledFixed(c.control, REPORT_QUIT), c.form), [Says(YesNo(t.quitQuestion, REPORT_QUIT))])
    else Handle(t, c, text, w, reporter, removal)
  }

  /** `resolve_message(text)`: the handler of the current state, behind its help intercept. */
  function Handle(t: Wording, c: Config, text: string, w: World, reporter: Helpers.Member, removal: Option<string>): (r: Response)
    ensures HasHelp(c.control.state) && Lower(text) in HELP_KEYWORDS ==> r.config == c && !Sends(r.acts)
    ensures c.control.state == FINISH_REPORT ==> r.config == c && (Does(Closed) in r.acts <==> removal.None?)
    ensures c.control.state == REPORT_START ==>
      r.config.control.state == (if c.form.message.Some? then AWAITING_ABUSE_TYPE else AWAITING_MESSAGE_LINK)
      && r.config.form == c.form && !Sends(r.acts)
  {
    var s := c.control.state;
    if s == REPORT_START then
      Transition(t, c, if c.form.message.Some? then AWAITING_ABUSE_TYPE else AWAITING_MESSAGE_LINK, removal)
    else if s == FINISH_REPORT then
      Response(c, Finished(t, removal))
    else
      match HelpReply(HelpOf(t, s), text)
      case Some(outs) => Response(c, [Says(outs)])
      case None => Answer(t, c, text, w, reporter, removal)
  }

  function Sorry(c: Config, t: string): Response {
    Response(c, [Says([Text(t)])])
  }

  /** A reply that is neither cancel nor help, by state. */
  function Answer(t: Wording, c: Config, text: string, w: World, reporter: Helpers.Member, removal: Option<string>): (r: Response)
    ensures c.control.state != REPORT_QUIT ==>
      r.config.control.prequit == c.control.prequit && r.config.control.state != REPORT_QUIT
  {
    match c.control.state
    case AWAITING_MESSAGE_LINK => LinkAnswer(t, c, text, w, removal)
    case AWAITING_ABUSE_TYPE => AbuseAnswer(t, c, text, removal)
    case CHECK_IF_VICTIM => TargetAnswer(t, c, text, reporter, removal)
    case ASK_FOR_VICTIM => VictimAnswer(t, c, text, w, reporter, removal)
    case SUICIDE_CHECK => UrgencyAnswer(t, c, text, removal)
    case CURRENT_EVENTS_CHECK => UrgencyAnswer(t, c, text, removal)
    case ADD_COMMENT => CommentAnswer(t, c, text, removal)
    case FINALIZE_REPORT => FinalizeAnswer(t, c, text, removal)
    case REPORT_QUIT => QuitAnswer(t, c, text, removal)
    case REPORT_START => Response(c, [])
    case FINISH_REPORT => Response(c, [])
  }

  /** The form keeps the message and the abuse type once it has them. */
  predicate Keeps(f: Form, g: Form) {
    (f.message.Some? ==> g.message.Some?) && (f.abuse.Some? ==> g.abuse.Some?)
  }

  /** An answer either stays in the state or moves to one of `targets`, keeps the snapshot and the
      form's answers, and sends no report. */
  predicate Moved(c: Config, r: Response, targets: set<UState>) {
    r.config.control.prequit == c.control.prequit
    && (r.config.control.state == c.control.state || r.config.control.state in targets)
    && Keeps(c.form, r.config.form) && !Sends(r.acts)
  }

  /** `check_if_victim`: "yes" makes the reporter the victim, "no" asks who is. */
  function TargetAnswer(t: Wording, c: Config, text: string, reporter: Helpers.Member, removal: Option<string>): (r: Response)
    ensures Moved(c, r, {ADD_COMMENT, ASK_FOR_VICTIM})
    ensures Lower(text) in YES_KEYWORDS ==> r.config.form.victim == Some(Some(reporter)) && r.config.control.state == ADD_COMMENT
    ensures Lower(text) in NO_KEYWORDS ==> r.config.form == c.form && r.config.control.state == ASK_FOR_VICTIM
  {
    YesNoDisjoint();
    if Lower(text) in YES_KEYWORDS then Transition(t, Config(c.control, c.form.(victim := Some(Some(reporter)))), ADD_COMMENT, removal)
    else if Lower(text) in NO_KEYWORDS then Transition(t, c, ASK_FOR_VICTIM, removal)
    else Sorry(c, t.yesNoSorry)
  }

  /** `add_comment`: "done" leaves the comments empty, anything else is the comment. */
  function CommentAnswer(t: Wording, c: Config, text: string, removal: Option<string>): (r: Response)
    ensures Moved(c, r, {FINALIZE_REPORT}) && r.config.control.state == FINALIZE_REPORT
    ensures r.config.form.comments == if Lower(text) == "done" then None else Some(text)
  {
    Transition(t, Config(c.control, c.form.(comments := if Lower(text) == "done" then None else Some(text))), FINALIZE_REPORT, removal)
  }

  /** `finalize_report`: "done" sends the report with the form's answers and finishes. */
  function FinalizeAnswer(t: Wording, c: Config, text: string, removal: Option<string>): (r: Response)
    ensures r.config.control.prequit == c.control.prequit && Keeps(c.form, r.config.form)
    ensures Sends(r.acts) <==> Lower(text) == "done"
    ensures Lower(text) == "done" ==>
      r.acts[0] == Does(UserReportSent(c.form.abuse, c.form.urgent, c.form.comments))
      && r.config.control.state == FINISH_REPORT && r.config.form.submitted
    ensures Lower(text) != "done" ==> r.config == c
  {
    var f := c.form;
    if Lower(text) == "done" then
      var r := Transition(t, Config(c.control, f.(submitted := true)), FINISH_REPORT, removal);
      assert Then(Does(UserReportSent(f.abuse, f.urgent, f.comments)), r).acts[0].effect.UserReportSent?;
      Then(Does(UserReportSent(f.abuse, f.urgent, f.comments)), r)
    else Response(c, [Says([Text(t.finalizeSorry), DoneButton(FINALIZE_REPORT)])])
  }

  /** `report_quit`: "yes" cancels the report and closes, "no" reverts to the state the cancel was
      typed in (a TypeError when no `revert` was passed). */
  function QuitAnswer(t: Wording, c: Config, text: string, removal: Option<string>): (r: Response)
    ensures r.config.form == c.form && !Sends(r.acts)
    ensures r.config.control == c.control
      || (RevertOffered(c.control, REPORT_QUIT) && Lower(text) in NO_KEYWORDS && r.config.control.prequit == None
          && r.config.control.state == Transition(t, c, c.control.prequit.value, removal).config.control.state)
  {
    if Lower(text) in YES_KEYWORDS then Response(c, [Says([Text(t.canceled)]), Close(removal)])
    else if Lower(text) in NO_KEYWORDS then
      if RevertOffered(c.control, REPORT_QUIT) then
        var r := Transition(t, c, c.control.prequit.value, removal);
        Response(Config(Control(r.config.control.state, None), r.config.form), r.acts)
      else Response(c, [Does(Raised("TypeError"))])
    else Sorry(c, t.yesNoSorry)
  }

  /** `awaiting_message_link`: read the link, look the message up, and on success show it and ask
      for the abuse type. A re-posted message is reported as the original it stands for. */
  function LinkAnswer(t: Wording, c: Config, text: string, w: World, removal: Option<string>): (r: Response)
    ensures Moved(c, r, {AWAITING_ABUSE_TYPE}) && r.config.form.abuse == c.form.abuse
    ensures r.config.control.state != c.control.state ==> r.config.form.message.Some?
  {
    match ResolveLink(text, w.dir)
    case Unreadable => Sorry(c, t.unreadable)
    case InDms => Sorry(c, t.inDms)
    case UnknownGuild => Sorry(c, t.noGuild)
    case UnknownChannel => Sorry(c, t.noChannel)
    case UnknownMessage => Sorry(c, t.noMessage)
    case Found(msg) =>
      if msg.id in w.paired then
        if msg.id in w.aliases then Located(t, c, w.aliases[msg.id], Some(msg), removal)
        else Response(Config(c.control, c.form.(replacement := Some(msg))), [Does(Raised("KeyError"))])
      else Located(t, c, msg, None, removal)
  }

  /** The message is shown and recorded, with the re-post it was found through, and the abuse
      question follows. */
  function Located(t: Wording, c: Config, msg: Msg, replacement: Option<Msg>, removal: Option<string>): (r: Response)
    ensures r.config.form == c.form.(message := Some(msg), replacement := replacement)
    ensures r.config.control == Control(AWAITING_ABUSE_TYPE, c.control.prequit)
    ensures !Sends(r.acts)
  {
    Then(Says([Text(t.found), Card(MessagePreviewText(msg.content, msg.attachments))]),
         Transition(t, Config(c.control, c.form.(message := Some(msg), replacement := replacement)), AWAITING_ABUSE_TYPE, removal))
  }

  /** `awaiting_abuse_type`: the first group, in menu order, that the answer selects. */
  function AbuseAnswer(t: Wording, c: Config, text: string, removal: Option<string>): (r: Response)
    ensures Moved(c, r, {ADD_COMMENT, CHECK_IF_VICTIM, SUICIDE_CHECK, CURRENT_EVENTS_CHECK})
    ensures r.config.control.state != c.control.state ==> r.config.form.abuse.Some?
  {
    match FirstSelected(text, ABUSE_GROUPS, 0)
    case None => Sorry(c, t.abuseSorry)
    case Some(k) => AbuseChosen(t, c, k, removal)
  }

  /** The `k`-th abuse type is recorded and the questionnaire moves on to the question it calls for. */
  function AbuseChosen(t: Wording, c: Config, k: nat, removal: Option<string>): (r: Response)
    requires k < 8
    ensures r.config.form == c.form.(abuse := Some(ABUSE_ORDER[k]))
    ensures r.config.control == Control(AfterAbuse(ABUSE_ORDER[k]), c.control.prequit)
    ensures !Sends(r.acts)
    ensures r.acts != [] && r.acts[0] == Says(SelectionReply(t, k))
  {
    var a := ABUSE_ORDER[k];
    Then(Says(SelectionReply(t, k)), Transition(t, Config(c.control, c.form.(abuse := Some(a))), AfterAbuse(a), removal))
  }

  /** `suicide_check` and `current_events_check`. */
  function UrgencyAnswer(t: Wording, c: Config, text: string, removal: Option<string>): (r: Response)
    ensures Moved(c, r, {ADD_COMMENT})
  {
    if Lower(text) in YES_KEYWORDS then
      Then(Says([Alert(t.callTitle, t.callText)]), Transition(t, Config(c.control, c.form.(urgent := Some(true))), ADD_COMMENT, removal))
    else if Lower(text) in NO_KEYWORDS then Transition(t, Config(c.control, c.form.(urgent := Some(false))), ADD_COMMENT, removal)
    else Sorry(c, t.yesNoSorry)
  }

  /** `ask_for_victim`, with the search going on past guilds that have no match. An empty answer
      raises IndexError (`message[0]`); a leading "@" is dropped. */
  function VictimAnswer(t: Wording, c: Config, text: string, w: World, reporter: Helpers.Member, removal: Option<string>): (r: Response)
    ensures Moved(c, r, {ADD_COMMENT})
  {
    if Lower(text) == "done" then Transition(t, Config(c.control, c.form.(victim := Some(None))), ADD_COMMENT, removal)
    else if text == [] then Response(c, [Does(Raised("IndexError"))])
    else
      var query := if text[0] == '@' then text[1..] else text;
      Searched(t, c, query, SearchGuilds(CommonGuilds(w.guilds, reporter.id), query), reporter, removal)
  }

  /** The answer to a victim search. */
  function Searched(t: Wording, c: Config, query: string, outcome: Search, reporter: Helpers.Member, removal: Option<string>): (r: Response)
    ensures Moved(c, r, {ADD_COMMENT})
    ensures r.config.control.state != c.control.state ==> outcome.Selected? && r.config.form.victim == Some(Some(outcome.member))
  {
    match outcome
    case Selected(m) =>
      Then(Says([Text("You selected " + MemberLine(m))]), Transition(t, Config(c.control, c.form.(victim := Some(Some(m)))), ADD_COMMENT, removal))
    case Ambiguous(ms) => Sorry(c, AmbiguousText(t, ms, reporter))
    case NotFound => Sorry(c, NotFoundText(t, query))
  }

  /** The form of a new flow: a message given up front that the bot re-posted stands for its
      original, which must be known (a KeyError otherwise). */
  function StartForm(message: Option<Msg>, w: World): (r: Result<Form, string>)
    ensures r.Ok? ==> r.value.abuse.None? && r.value.victim.None? && r.value.urgent.None? && !r.value.submitted
    ensures r.Err? <==> message.Some? && message.value.id in w.paired && message.value.id !in w.aliases
    ensures r.Ok? && r.value.replacement.Some? ==>
      message.Some? && r.value.replacement == message && message.value.id in w.aliases && r.value.message == Some(w.aliases[message.value.id])
  {
    var blank := Form(message, None, None, None, None, None, false);
    if message.Some? && message.value.id in w.paired then
      if message.value.id in w.aliases then Ok(blank.(message := Some(w.aliases[message.value.id]), replacement := message))
      else Err("KeyError")
    else Ok(blank)
  }

  /** A `UserReportCreationFlow`: its flow engine, the client's table of flows it is listed in,
      its reporter and the report it fills in. */
  class ReportCreation {
    const flow: Flow<UState>
    const table: Table
    const key: FlowKey
    const reporter: Helpers.Member
    const texts: Wording
    var form: Form

    constructor (reporter: Helpers.Member, key: FlowKey, table: Table, form: Form)
      ensures this.reporter == reporter && this.key == key && this.table == table && this.form == form
      ensures texts == WORDING
      ensures fresh(flow) && flow.trace == [] && flow.Recorded() && Valid()
      ensures Now() == Config(Control(REPORT_START, None), form)
    {
      this.reporter, this.key, this.table, this.form, texts := reporter, key, table, form, WORDING;
      flow := new Flow(REPORT_START, Some(REPORT_QUIT));
    }

    predicate Valid()
      reads this, flow
    {
      flow.quitState == Some(REPORT_QUIT)
    }

    function Now(): Config
      reads this, flow
    {
      Config(flow.Current(), form)
    }

    /** What removing this flow from the reporter's list would raise. */
    function Removal(): Option<string>
      reads this, table
    {
      table.RemovalError(reporter.id, key)
    }

    /** The step performed `r`: the flow is in `r.config`, the channel gained `r.acts`, and the
        table lost this flow exactly when the flow closed. */
    twostate predicate Performed(r: Response)
      reads this, flow, table
    {
      Now() == r.config
      && flow.trace == old(flow.trace) + r.acts
      && (old(flow.Recorded()) ==> flow.Recorded())
      && table.flows == (if Does(Closed) in r.acts then AfterClose(old(table.flows), reporter.id, key) else old(table.flows))
      && table.pendingEdit == old(table.pendingEdit)
    }

    /** The transition to the start state that the constructor schedules. */
    method Begin()
      modifies this, flow, table
      ensures Performed(Transition(texts, old(Now()), REPORT_START, old(Removal())))
    {
      TransitionToState(REPORT_START);
    }

    /** `transition_to_state(s)`. */
    method TransitionToState(s: UState)
      modifies this, flow, table
      ensures Performed(Transition(texts, old(Now()), s, old(Removal())))
      decreases if s == REPORT_START then 1 else 0
    {
      flow.SetState(s);
      if s == REPORT_START {
        flow.Say([Text(texts.start)]);
        TransitionToState(if form.message.Some? then AWAITING_ABUSE_TYPE else AWAITING_MESSAGE_LINK);
      } else if s == FINISH_REPORT {
        FinishReport();
      } else {
        Introduce();
      }
    }

    /** The introduction of a state entered by `transition_to_state`, said on the channel. */
    method Introduce()
      modifies flow
      ensures Performed(Response(old(Now()), [Says(Intro(texts, old(flow.state), form))]))
    {
      var outs := Introduction();
      flow.Say(outs);
    }

    /** The introduction of the current state, its buttons made by `react_yes`, `react_no`,
        `react_done` and `react_index`. */
    method Introduction() returns (outs: seq<Output<UState>>)
      ensures outs == Intro(texts, flow.state, form)
    {
      match flow.state
      case AWAITING_MESSAGE_LINK => outs := [Text(texts.linkPrompt)];
      case AWAITING_ABUSE_TYPE =>
        outs := [Text(texts.abuseMenu)];
        for i := 1 to 9
          invariant outs == AbuseMenu(texts)[..i]
        {
          outs := outs + [IndexButton(flow.state, i)];
        }
      case ADD_COMMENT => outs := [Text(texts.commentPrompt), flow.ReactDone()];
      case CHECK_IF_VICTIM => outs := [Text(texts.targetQuestion), flow.ReactYes(), flow.ReactNo()];
      case ASK_FOR_VICTIM => outs := [Text(texts.searchPrompt), flow.ReactDone()];
      case SUICIDE_CHECK => outs := [Text(texts.suicideQuestion), flow.ReactYes(), flow.ReactNo()];
      case CURRENT_EVENTS_CHECK => outs := [Text(texts.eventsQuestion), flow.ReactYes(), flow.ReactNo()];
      case FINALIZE_REPORT =>
        outs := [Text(texts.previewIntro), Fields(ReportFields(form), if form.submitted then "" else texts.notSubmitted),
                 Text(texts.pressDone), flow.ReactDone()];
      case REPORT_QUIT => outs := [Text(texts.quitQuestion), flow.ReactYes(), flow.ReactNo()];
      case REPORT_START => outs := [];
      case FINISH_REPORT => outs := [];
    }

    /** `say(outs)` followed by `transition_to_state(s)`. */
    method SayThenTransition(outs: seq<Output<UState>>, s: UState)
      modifies this, flow, table
      ensures Performed(Then(Says(outs), Transition(texts, old(Now()), s, old(Removal()))))
    {
      ghost var c0, rem, t0 := Now(), Removal(), flow.trace;
      flow.Say(outs);
      assert Now() == c0;
      TransitionToState(s);
      ghost var r := Transition(texts, c0, s, rem);
      assert flow.trace == t0 + ([Says(outs)] + r.acts);
      assert Does(Closed) in r.acts <==> Does(Closed) in [Says(outs)] + r.acts;
    }

    /** `finish_report`. */
    method FinishReport()
      modifies this, flow, table
      ensures Performed(Response(old(Now()), Finished(texts, old(Removal()))))
    {
      var err := table.Remove(reporter.id, key);
      if err.None? {
        flow.Do(Closed);
        flow.Say([Text(texts.thanks)]);
      } else {
        flow.Do(Raised(err.value));
      }
    }

    /** `forward_message(text)`, the text stripped. */
    method ForwardMessage(text: string, w: World)
      requires Valid()
      modifies this, flow, table
      ensures Performed(Respond(texts, old(Now()), text, w, reporter, old(Removal())))
    {
      if flow.IsCancel(text) {
        flow.Cancel();
        flow.Say([Text(texts.quitQuestion), flow.ReactYes(), flow.ReactNo()]);
      } else {
        ResolveMessage(text, w);
      }
    }

    /** `resolve_message(text)`. */
    method ResolveMessage(text: string, w: World)
      modifies this, flow, table
      ensures Performed(Handle(texts, old(Now()), text, w, reporter, old(Removal())))
    {
      var s := flow.state;
      if s == REPORT_START {
        TransitionToState(if form.message.Some? then AWAITING_ABUSE_TYPE else AWAITING_MESSAGE_LINK);
      } else if s == FINISH_REPORT {
        FinishReport();
      } else {
        var help := HelpReply<UState>(HelpOf(texts, s), text);
        if help.Some? {
          flow.Say(help.value);
        } else {
          match s
          case AWAITING_MESSAGE_LINK => AwaitingMessageLink(text, w);
          case AWAITING_ABUSE_TYPE => AwaitingAbuseType(text);
          case CHECK_IF_VICTIM => CheckIfVictim(text);
          case ASK_FOR_VICTIM => AskForVictim(text, w);
          case SUICIDE_CHECK => UrgencyCheck(text);
          case CURRENT_EVENTS_CHECK => UrgencyCheck(text);
          case ADD_COMMENT => AddComment(text);
          case FINALIZE_REPORT => FinalizeReport(text);
          case REPORT_QUIT => ReportQuit(text);
        }
      }
    }

    /** `awaiting_message_link`. */
    method AwaitingMessageLink(text: string, w: World)
      modifies this, flow, table
      ensures Performed(LinkAnswer(texts, old(Now()), text, w, old(Removal())))
    {
      var outcome := ResolveLink(text, w.dir);
      match outcome
      case Unreadable => flow.Say([Text(texts.unreadable)]);
      case InDms => flow.Say([Text(texts.inDms)]);
      case UnknownGuild => flow.Say([Text(texts.noGuild)]);
      case UnknownChannel => flow.Say([Text(texts.noChannel)]);
      case UnknownMessage => flow.Say([Text(texts.noMessage)]);
      case Found(msg) =>
        if msg.id in w.paired {
          if msg.id !in w.aliases {
            form := form.(replacement := Some(msg));
            flow.Do(Raised("KeyError"));
            return;
          }
          Locate(w.aliases[msg.id], Some(msg));
        } else {
          Locate(msg, None);
        }
    }

    /** The message is recorded with the re-post it was found through, shown, and the abuse
        question follows. */
    method Locate(msg: Msg, replacement: Option<Msg>)
      modifies this, flow, table
      ensures Performed(Located(texts, old(Now()), msg, replacement, old(Removal())))
    {
      form := form.(replacement := replacement);
      form := form.(message := Some(msg));
      SayThenTransition([Text(texts.found), Card(MessagePreviewText(msg.content, msg.attachments))], AWAITING_ABUSE_TYPE);
    }

    /** `awaiting_abuse_type`. */
    method AwaitingAbuseType(text: string)
      modifies this, flow, table
      ensures Performed(AbuseAnswer(texts, old(Now()), text, old(Removal())))
    {
      var k := FirstSelected(text, ABUSE_GROUPS, 0);
      match k
      case None => flow.Say([Text(texts.abuseSorry)]);
      case Some(i) =>
        var a := ABUSE_ORDER[i];
        form := form.(abuse := Some(a));
        SayThenTransition(SelectionReply(texts, i), AfterAbuse(a));
    }

    /** `check_if_victim`. */
    method CheckIfVictim(text: string)
      requires flow.state == CHECK_IF_VICTIM
      modifies this, flow, table
      ensures Performed(TargetAnswer(texts, old(Now()), text, reporter, old(Removal())))
    {
      if Lower(text) in YES_KEYWORDS {
        form := form.(victim := Some(Some(reporter)));
        TransitionToState(ADD_COMMENT);
      } else if Lower(text) in NO_KEYWORDS {
        TransitionToState(ASK_FOR_VICTIM);
      } else {
        flow.Say([Text(texts.yesNoSorry)]);
      }
    }

    /** The guilds the reporter shares with the bot, in the client's order. */
    method SharedGuilds(guilds: seq<seq<Helpers.Member>>) returns (common: seq<seq<Helpers.Member>>)
      ensures common == CommonGuilds(guilds, reporter.id)
    {
      common := [];
      var i := 0;
      while i < |guilds|
        invariant i <= |guilds|
        invariant common == CommonGuilds(guilds[..i], reporter.id)
      {
        assert guilds[..i + 1][..i] == guilds[..i];
        if HasMember(guilds[i], reporter.id) {
          common := common + [guilds[i]];
        }
        i := i + 1;
      }
      assert guilds[..i] == guilds;
    }

    /** The search of `ask_for_victim`: the shared guilds in order, until one has a match. */
    method SearchVictim(guilds: seq<seq<Helpers.Member>>, query: string) returns (outcome: Search)
      ensures outcome == SearchGuilds(CommonGuilds(guilds, reporter.id), query)
    {
      var common := SharedGuilds(guilds);
      outcome := NotFound;
      var j := 0;
      while j < |common| && outcome.NotFound?
        invariant j <= |common|
        invariant SearchGuilds(common, query) == if outcome.NotFound? then SearchGuilds(common[j..], query) else outcome
      {
        assert common[j..][1..] == common[j + 1..];
        var ms := Helpers.FindUsersFixed(common[j], query);
        if |ms| == 1 {
          outcome := Selected(ms[0]);
        } else if |ms| >= 2 {
          outcome := Ambiguous(ms);
        }
        j := j + 1;
      }
    }

    /** `ask_for_victim`, searching the shared guilds until one has a match. */
    method AskForVictim(text: string, w: World)
      modifies this, flow, table
      ensures Performed(VictimAnswer(texts, old(Now()), text, w, reporter, old(Removal())))
    {
      if Lower(text) == "done" {
        form := form.(victim := Some(None));
        TransitionToState(ADD_COMMENT);
        return;
      }
      if text == [] {
        flow.Do(Raised("IndexError"));
        return;
      }
      var query := if text[0] == '@' then text[1..] else text;
      var outcome := SearchVictim(w.guilds, query);
      AnswerSearch(query, outcome);
    }

    method AnswerSearch(query: string, outcome: Search)
      modifies this, flow, table
      ensures Performed(Searched(texts, old(Now()), query, outcome, reporter, old(Removal())))
    {
      match outcome
      case Selected(m) =>
        form := form.(victim := Some(Some(m)));
        SayThenTransition([Text("You selected " + MemberLine(m))], ADD_COMMENT);
      case Ambiguous(ms) => flow.Say([Text(AmbiguousText(texts, ms, reporter))]);
      case NotFound => flow.Say([Text(NotFoundText(texts, query))]);
    }

    /** `suicide_check` and `current_events_check`. */
    method UrgencyCheck(text: string)
      modifies this, flow, table
      ensures Performed(UrgencyAnswer(texts, old(Now()), text, old(Removal())))
    {
      if Lower(text) in YES_KEYWORDS {
        form := form.(urgent := Some(true));
        SayThenTransition([Alert(texts.callTitle, texts.callText)], ADD_COMMENT);
      } else if Lower(text) in NO_KEYWORDS {
        form := form.(urgent := Some(false));
        TransitionToState(ADD_COMMENT);
      } else {
        flow.Say([Text(texts.yesNoSorry)]);
      }
    }

    /** `add_comment`. */
    method AddComment(text: string)
      requires flow.state == ADD_COMMENT
      modifies this, flow, table
      ensures Performed(CommentAnswer(texts, old(Now()), text, old(Removal())))
    {
      form := form.(comments := if Lower(text) == "done" then None else Some(text));
      TransitionToState(FINALIZE_REPORT);
    }

    /** `finalize_report`: "done" sends the report to the moderators. */
    method FinalizeReport(text: string)
      requires flow.state == FINALIZE_REPORT
      modifies this, flow, table
      ensures Performed(FinalizeAnswer(texts, old(Now()), text, old(Removal())))
    {
      if Lower(text) == "done" {
        ghost var t0, rem := flow.trace, Removal();
        var e := UserReportSent(form.abuse, form.urgent, form.comments);
        flow.Do(e);
        form := form.(submitted := true);
        ghost var c1 := Now();
        TransitionToState(FINISH_REPORT);
        ghost var r := Transition(texts, c1, FINISH_REPORT, rem);
        assert flow.trace == t0 + ([Does(e)] + r.acts);
        assert Does(Closed) in r.acts <==> Does(Closed) in [Does(e)] + r.acts;
      } else {
        flow.Say([Text(texts.finalizeSorry), flow.ReactDone()]);
      }
    }

    /** `report_quit`, with `revert` passed exactly when the snapshot is set. */
    method ReportQuit(text: string)
      requires flow.state == REPORT_QUIT
      modifies this, flow, table
      ensures Performed(QuitAnswer(texts, old(Now()), text, old(Removal())))
    {
      if Lower(text) in YES_KEYWORDS {
        flow.Say([Text(texts.canceled)]);
        var err := table.Remove(reporter.id, key);
        if err.None? {
          flow.Do(Closed);
        } else {
          flow.Do(Raised(err.value));
        }
      } else if Lower(text) in NO_KEYWORDS {
        if flow.prequit.Some? {
          TransitionToState(flow.prequit.value);
          flow.ClearSnapshot();
        } else {
          flow.Do(Raised("TypeError"));
        }
      } else {
        flow.Say([Text(texts.yesNoSorry)]);
      }
    }
  }

  /** Every reply keeps the snapshot sound: in the quit state there is a state to return to, and
      it is never the quit state itself. */
  lemma {:induction false} RespondKeepsSound(t: Wording, c: Config, text: string, w: World, reporter: Helpers.Member, removal: Option<string>)
    requires SoundSnapshot(c.control, REPORT_QUIT)
    ensures SoundSnapshot(Respond(t, c, text, w, reporter, removal).config.control, REPORT_QUIT)
  {
    if Lower(text) in CANCEL_KEYWORDS {
      SoundSnapshotKept(c.control, REPORT_QUIT);
    } else if c.control.state !in {REPORT_START, FINISH_REPORT} && HelpReply<UState>(HelpOf(t, c.control.state), text).None? {
      AnswerKeepsSound(t, c, text, w, reporter, removal);
    }
  }

  lemma {:induction false} AnswerKeepsSound(t: Wording, c: Config, text: string, w: World, reporter: Helpers.Member, removal: Option<string>)
    requires SoundSnapshot(c.control, REPORT_QUIT)
    ensures SoundSnapshot(Answer(t, c, text, w, reporter, removal).config.control, REPORT_QUIT)
  {
    if c.control.state == REPORT_QUIT {
      QuitKeepsSound(t, c, text, removal);
    }
  }

  /** Answering the quit question leaves the quit state only by returning to a state that is not
      the quit state, dropping the snapshot. */
  lemma QuitKeepsSound(t: Wording, c: Config, text: string, removal: Option<string>)
    requires SoundSnapshot(c.control, REPORT_QUIT)
    ensures SoundSnapshot(QuitAnswer(t, c, text, removal).config.control, REPORT_QUIT)
  {
    var r := QuitAnswer(t, c, text, removal);
    if r.config.control != c.control {
      assert r.config.control.state == Transition(t, c, c.control.prequit.value, removal).config.control.state;
    }
  }

  /** The questionnaire's stages: past the link the form has its message, past the abuse menu its
      abuse type. */
  predicate Stage(s: UState, f: Form) {
    (s !in {REPORT_START, AWAITING_MESSAGE_LINK, REPORT_QUIT} ==> f.message.Some?)
    && (s !in {REPORT_START, AWAITING_MESSAGE_LINK, AWAITING_ABUSE_TYPE, REPORT_QUIT} ==> f.abuse.Some?)
  }

  /** The state and the state the snapshot returns to are both in their stage. */
  predicate Coherent(c: Config) {
    Stage(c.control.state, c.form) && (c.control.prequit.Some? ==> Stage(c.control.prequit.value, c.form))
  }

  lemma StageKept(s: UState, f: Form, g: Form)
    requires Stage(s, f) && Keeps(f, g)
    ensures Stage(s, g)
  {
  }

  /** Every reply keeps the form in step with the questionnaire. */
  lemma {:induction false} RespondKeepsCoherent(t: Wording, c: Config, text: string, w: World, reporter: Helpers.Member, removal: Option<string>)
    requires Coherent(c)
    ensures Coherent(Respond(t, c, text, w, reporter, removal).config)
  {
    if Lower(text) in CANCEL_KEYWORDS {
    } else if c.control.state !in {REPORT_START, FINISH_REPORT} && HelpReply<UState>(HelpOf(t, c.control.state), text).None? {
      AnswerKeepsCoherent(t, c, text, w, reporter, removal);
    }
  }

  lemma {:induction false} AnswerKeepsCoherent(t: Wording, c: Config, text: string, w: World, reporter: Helpers.Member, removal: Option<string>)
    requires Coherent(c)
    ensures Coherent(Answer(t, c, text, w, reporter, removal).config)
  {
    var r := Answer(t, c, text, w, reporter, removal);
    var s, f, g := c.control.state, c.form, r.config.form;
    match s
    case AWAITING_MESSAGE_LINK => assert r == LinkAnswer(t, c, text, w, removal);
    case AWAITING_ABUSE_TYPE => assert r == AbuseAnswer(t, c, text, removal);
    case CHECK_IF_VICTIM =>
      assert r == TargetAnswer(t, c, text, reporter, removal);
      StageKept(r.config.control.state, f, g);
    case ASK_FOR_VICTIM =>
      assert r == VictimAnswer(t, c, text, w, reporter, removal);
      StageKept(r.config.control.state, f, g);
    case SUICIDE_CHECK =>
      assert r == UrgencyAnswer(t, c, text, removal);
      StageKept(r.config.control.state, f, g);
    case CURRENT_EVENTS_CHECK =>
      assert r == UrgencyAnswer(t, c, text, removal);
      StageKept(r.config.control.state, f, g);
    case ADD_COMMENT =>
      assert r == CommentAnswer(t, c, text, removal);
      StageKept(r.config.control.state, f, g);
    case FINALIZE_REPORT =>
      assert r == FinalizeAnswer(t, c, text, removal);
      StageKept(r.config.control.state, f, g);
    case REPORT_QUIT => assert r == QuitAnswer(t, c, text, removal);
    case REPORT_START =>
    case FINISH_REPORT =>
  }

  /** Whether the actions include sending a user report. */
  predicate Sends(acts: seq<Action<UState>>) {
    exists i :: 0 <= i < |acts| && acts[i].Does? && acts[i].effect.UserReportSent?
  }

  /** A report is sent only from the final review, on "done", with the answers of the form; in a
      coherent configuration it has its message and abuse type. */
  lemma {:induction false} SentReportsAreComplete(t: Wording, c: Config, text: string, w: World, reporter: Helpers.Member, removal: Option<string>)
    requires Sends(Respond(t, c, text, w, reporter, removal).acts)
    ensures c.control.state == FINALIZE_REPORT && Lower(text) == "done"
    ensures Respond(t, c, text, w, reporter, removal).acts[0] == Does(UserReportSent(c.form.abuse, c.form.urgent, c.form.comments))
    ensures Coherent(c) ==> c.form.abuse.Some? && c.form.message.Some?
  {

  }

  /** Help, in any state that offers it, answers with that state's help text and changes nothing. */
  lemma HelpChangesNothing(t: Wording, c: Config, text: string, w: World, reporter: Helpers.Member, removal: Option<string>)
    requires HasHelp(c.control.state) && Lower(text) in HELP_KEYWORDS
    ensures var r := Respond(t, c, text, w, reporter, removal);
      r.config == c && r.acts == [Says([Text(HelpOf(t, c.control.state)[0])])]
  {
    KeywordSetsDisjoint();
    assert Lower(text) !in CANCEL_KEYWORDS;
    var h := HelpReply<UState>(HelpOf(t, c.control.state), text);
    assert h.value == [Text(HelpOf(t, c.control.state)[0])];
  }

  /** The number of a menu entry, typed alone, selects that entry's abuse type: the type is
      recorded, the selection is acknowledged first, and the question the type calls for follows. */
  lemma NumberPicksAbuse(t: Wording, c: Config, k: nat, w: World, reporter: Helpers.Member, removal: Option<string>)
    requires c.control.state == AWAITING_ABUSE_TYPE && k < 8
    ensures var r := Respond(t, c, DecimalString(k + 1), w, reporter, removal);
      r.config.form == c.form.(abuse := Some(ALL_ABUSE_TYPES[k]))
      && r.config.control == Control(AfterAbuse(ALL_ABUSE_TYPES[k]), c.control.prequit)
      && r.acts[0] == Says(SelectionReply(t, k))
  {
    var d := DecimalString(k + 1);
    NumberIsNoKeyword(k);
    assert Respond(t, c, d, w, reporter, removal) == AbuseAnswer(t, c, d, removal);
  }

  /** A menu number is a one-digit word that no keyword group names and no intercept catches, so
      it selects its own entry. */
  lemma NumberIsNoKeyword(k: nat)
    requires k < 8
    ensures var d := DecimalString(k + 1);
      Lower(d) !in CANCEL_KEYWORDS && Lower(d) !in HELP_KEYWORDS && FirstSelected(d, ABUSE_GROUPS, 0) == Some(k)
  {
    var d := DecimalString(k + 1);
    OneDigitWord(k + 1);
    OneLetterKeywords(d);
    assert d != "?" by {
      assert d[0] == DigitChar(k + 1);
    }
    OneLetterNamesNoGroup(d);
    forall j | 0 <= j < k
      ensures !Names(d, ABUSE_GROUPS[j])
    {
      NamesWord(d, ABUSE_GROUPS[j]);
    }
    NumberSelects(ABUSE_GROUPS, k, d);
  }

  /** Every keyword of the abuse menu is longer than one character. */
  lemma OneLetterNamesNoGroup(d: string)
    requires |d| == 1
    ensures forall j :: 0 <= j < |ABUSE_GROUPS| ==> d !in ABUSE_GROUPS[j]
  {
    assert d !in SPAM_WORDS && d !in HATE_WORDS && d !in SEXUAL_WORDS && d !in HARASS_WORDS;
    assert d !in BULLYING_WORDS && d !in HARMFUL_WORDS && d !in VIOLENCE_WORDS && d !in CSAM_WORDS;
  }

  /** "cancel" in a question asks whether to quit; "no" then goes back to that question, asked
      again, with the snapshot cleared and the form untouched. */
  lemma CancelThenNoResumes(t: Wording, c: Config, w: World, reporter: Helpers.Member, removal: Option<string>)
    requires c.control.state !in {REPORT_QUIT, REPORT_START, FINISH_REPORT}
    ensures var q := Respond(t, c, "cancel", w, reporter, removal);
      q.config == Config(Control(REPORT_QUIT, Some(c.control.state)), c.form)
      && q.acts == [Says(YesNo(t.quitQuestion, REPORT_QUIT))]
      && var r := Respond(t, q.config, "no", w, reporter, removal);
      r.config == Config(Control(c.control.state, None), c.form)
      && r.acts == [Says(Intro(t, c.control.state, c.form))]
  {
    CancelAsks(t, c, w, reporter, removal);
    QuitNoResumes(t, Config(Control(REPORT_QUIT, Some(c.control.state)), c.form), w, reporter, removal);
  }

  /** "cancel" outside the quit question asks it, keeping the state it was typed in. */
  lemma CancelAsks(t: Wording, c: Config, w: World, reporter: Helpers.Member, removal: Option<string>)
    requires c.control.state != REPORT_QUIT
    ensures Respond(t, c, "cancel", w, reporter, removal)
         == Response(Config(Control(REPORT_QUIT, Some(c.control.state)), c.form), [Says(YesNo(t.quitQuestion, REPORT_QUIT))])
  {
    assert Lower("cancel") == "cancel";
  }

  /** "no" to the quit question goes back to the state the reporter cancelled in, introducing it
      again, and forgets the snapshot. */
  lemma QuitNoResumes(t: Wording, c: Config, w: World, reporter: Helpers.Member, removal: Option<string>)
    requires c.control.state == REPORT_QUIT && c.control.prequit.Some?
    requires c.control.prequit.value !in {REPORT_QUIT, REPORT_START, FINISH_REPORT}
    ensures var r := Respond(t, c, "no", w, reporter, removal);
      r.config == Config(Control(c.control.prequit.value, None), c.form)
      && r.acts == [Says(Intro(t, c.control.prequit.value, c.form))]
  {
    assert Lower("no") == "no";
    assert HelpReply<UState>(HelpOf(t, REPORT_QUIT), "no").None?;
    assert Respond(t, c, "no", w, reporter, removal) == QuitAnswer(t, c, "no", removal);
  }

  /** "yes" to the quit question cancels the report: it says so and the flow closes (or raises, when
      it is no longer in the reporter's list). */
  lemma QuitYesCloses(t: Wording, c: Config, w: World, reporter: Helpers.Member, removal: Option<string>)
    requires c.control.state == REPORT_QUIT
    ensures var r := Respond(t, c, "yes", w, reporter, removal);
      r.config == c && r.acts == [Says([Text(t.canceled)]), Close(removal)]
      && (Does(Closed) in r.acts <==> removal.None?)
  {
    assert Lower("yes") == "yes";
    assert HelpReply<UState>(HelpOf(t, REPORT_QUIT), "yes").None?;
  }

  /** "done" at the final review sends the report first, then the flow closes and thanks the
      reporter. */
  lemma SubmitSendsThenCloses(t: Wording, c: Config, w: World, reporter: Helpers.Member)
    requires c.control.state == FINALIZE_REPORT
    ensures var r := Respond(t, c, "done", w, reporter, None);
      r.acts == [Does(UserReportSent(c.form.abuse, c.form.urgent, c.form.comments)), Does(Closed), Says([Text(t.thanks)])]
      && r.config.control.state == FINISH_REPORT && r.config.form == c.form.(submitted := true)
  {
    assert Lower("done") == "done";
    assert HelpReply<UState>(HelpOf(t, FINALIZE_REPORT), "done").None?;
  }

  /** AS WRITTEN, the victim search gives up at the first shared guild where nobody matches, and
      goes on past a guild where the victim was found; the search as intended finds the victim in
      either order. */
  lemma VictimSearchStopsEarly()
    ensures var bob := Helpers.Member(7, "bob", "bob", "1");
      SearchGuildsAsWritten([[], [bob]], "bob") == ([], Some(NotFound))
      && SearchGuilds([[], [bob]], "bob") == Selected(bob)
      && SearchGuildsAsWritten([[bob], []], "bob") == ([bob], Some(NotFound))
      && SearchGuilds([[bob], []], "bob") == Selected(bob)
  {
    var bob := Helpers.Member(7, "bob", "bob", "1");
    assert Helpers.TrailingDigits("bob") == 0;
    assert Helpers.ParseQuery("bob") == ("bob", None) == Helpers.ParseQueryFixed("bob");
    assert [bob][..0] == [];
    assert Helpers.Matching([bob], "bob", None) == [bob];
    assert [[bob], []][1..] == [[]] && [[], [bob]][1..] == [[bob]];
    assert Helpers.FindUsers([], "bob") == [];
    assert SearchGuildsAsWritten([[]], "bob") == ([], Some(NotFound));
    assert [bob] + [] == [bob];
  }
}
