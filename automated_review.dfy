/** The dialogue a moderator holds with the bot about an automated report assigned to them: a menu
    of commands and buttons (hide or reveal the message, delete it, kick or ban its author,
    unassign, resolve), a yes/no confirmation before each irreversible action, and the guards that
    let only the assignee of a report being handled act on it. The model follows the corrected
    behaviour; the code as written is kept beside it (`Version`) for the lemmas that exhibit the
    differences. */
module AutomatedReview {
  import opened Wrappers
  import opened Text
  import opened Consts
  import opened Reactions
  import opened FlowEngine
  import opened Claims
  import Helpers

  datatype AState = REVIEW_START | REVIEW_RESTART | CONFIRM_DELETE | CONFIRM_KICK | CONFIRM_BAN | REVIEW_QUIT

  /** Everything the dialogue says, so that the long texts are bound once. */
  datatype Wording = Wording(
    notAssigned: string,
    resolvedBy: string,
    assignedTo: string,
    alreadyDeleted: string,
    hidden: string,
    hideProblem: string,
    revealed: string,
    revealProblem: string,
    deleted: string,
    deleteProblem: string,
    kickInDm: string,
    gone: string,
    kicked: string,
    kickProblem: string,
    banInDm: string,
    noBanRight: string,
    alreadyBanned: string,
    banned: string,
    banProblem: string,
    unassigned: string,
    thanks: string,
    assignedIntro: string,
    menu: string,
    helpMenu: string,
    restart: string,
    hideHelp: string,
    revealHelp: string,
    deleteHelp: string,
    kickHelp: string,
    banHelp: string,
    unassignHelp: string,
    resolveHelp: string,
    noSuch: string,
    noHelpTail: string,
    noCommandTail: string,
    deleteQuestion: string,
    kickQuestion: string,
    banQuestion: string,
    confirmDeleteHelp: string,
    confirmKickHelp: string,
    confirmBanHelp: string,
    sorry: string)

  const WORDING: Wording := Wording(
    "This report is not currently assigned to anyone. Assign " +
    "it to yourself to take action.",
    "This report has already been resolved by ",
    "This report has been assigned to ",
    "The message has already been deleted.",
    "The message has been hidden.",
    "There was a problem while attempting to hide the message.",
    "The message has been revealed.",
    "There was a problem while attempting to reveal the message.",
    "The message has been deleted.",
    "There was a problem while attempting to delete the message.",
    "You can't kick a user from a private DM channel.",
    "The user is no longer in the guild.",
    "The user has been kicked from the guild.",
    "There was a problem while attempting to kick the user " +
    "from the guild.",
    "You can't ban someone form a DM channel.",
    "You don't have the right permissions to ban people from " +
    "this guild.",
    "This user has already been banned from this guild.",
    "The user has been banned from the guild.",
    "There was a problem while attempting to ban the user " +
    "from the guild.",
    "You've unassigned yourself from this report. It is now " +
    "up for grabs again.",
    "Thank you for resolving this report. It has been " +
    "removed from the list of reports.",
    "You've been assigned to the following report:",
    "\n" +
    "                    Use the buttons below, or text " +
    "commands to take action.\n" +
    "                    Say `help [command name]` for more " +
    "information about each command.\n" +
    "                    \U{1F441} `hide`/`reveal` \U{2013} " +
    "Hide the message behind " +
    "spoilers or reveal it\n" +
    "                    \U{1F5D1} `delete` \U{2013} Delete " +
    "the offending comment\n" +
    "                    \U{1F97E} `kick` \U{2013} Kick the " +
    "offending user off the channel\n" +
    "                    \U{1F480} `ban` \U{2013} Ban the " +
    "offending user from the channel\n" +
    "                    \U{1F6AB} `unassign` \U{2013} " +
    "Unassign yourself from this report\n" +
    "                    \U{2705} `resolve` \U{2013} Mark " +
    "this report as resolved\n" +
    "                ",
    "\n" +
    "                        Select one of the buttons below " +
    "to choose the " +
    "associated action, or reply with one of these command " +
    "names.\n" +
    "                        Say `help [command name]` for " +
    "more information about " +
    "each command.\n" +
    "                        \U{1F441} `hide`/`reveal`\n" +
    "                        \U{1F5D1} `delete`\n" +
    "                        \U{1F97E} `kick`\n" +
    "                        \U{1F480} `ban`\n" +
    "                        \U{1F6AB} `unassign`\n" +
    "                        \U{2705} `resolve`\n" +
    "                    ",
    "\n" +
    "                You can use all these commands, or use " +
    "buttons from the first " +
    "message above.\n" +
    "                Say `help [command name]` for more " +
    "information about each command.\n" +
    "                \U{1F441} `hide`/`reveal` \U{2013} Hide " +
    "the message behind " +
    "spoilers or reveal it\n" +
    "                \U{1F5D1} `delete` \U{2013} Delete the " +
    "offending comment\n" +
    "                \U{1F97E} `kick` \U{2013} Kick the " +
    "offending user off the channel\n" +
    "                \U{1F480} `ban` \U{2013} Ban the " +
    "offending user from the channel\n" +
    "                \U{1F6AB} `unassign` \U{2013} Unassign " +
    "yourself from this report\n" +
    "                \U{2705} `resolve` \U{2013} Mark this " +
    "report as resolved\n" +
    "            ",
    "\U{1F441} `hide` will hide the original message behind " +
    "spoilers: ||like this||. " +
    "This makes sure that only someone who actively clicks " +
    "on the message will have to see it.",
    "\U{1F441} `reveal` will reveal a hidden message so that " +
    "anyone can see it. A " +
    "message may have been hidden automatically, or hidden " +
    "using the `hide` command.",
    "\U{1F5D1} `delete` will permanently delete the message. " +
    "The user who originally " +
    "wrote the message will be notified that someone on the " +
    "moderation team deleted " +
    "their message.",
    "\U{1F97E} `kick` will kick the user off the guild. The " +
    "user will still be able " +
    "to re-join the guild as normal afterward if they choose to.",
    "\U{1F480} `ban` will ban the user from the guild. This " +
    "prevents the user from " +
    "being able to re-join indefinitely as long as the ban " +
    "isn't lifted. This should " +
    "only be used for the most serious offenses.",
    "\U{1F6AB} `unasssign` will unassign this report from " +
    "you. Any changes you made " +
    "will remain in effect, but someone else will be able to " +
    "assign themselves to " +
    "handle the report instead.",
    "\U{2705} `resolve` will mark this report as resolved " +
    "and disappear from the " +
    "report queue. This should only be done once you are " +
    "done taking action with the " +
    "report with other commands.",
    "There is no `",
    "` command. Please use `help [command name]` with one of " +
    "the following commands: " +
    "`hide`, `reveal`, `delete`, `kick`, `ban`, `unassign`, " +
    "`resolve`.",
    "` command. Please enter one of the following commands " +
    "or say `help`: `hide`, " +
    "`reveal`, `delete`, `kick`, `ban`, `unassign`, `resolve`.",
    "You are about to permanently delete this message. This " +
    "action **cannot be " +
    "undone**. Are you sure you want to continue?",
    "You are about to kick this user from the guild. This " +
    "action can only be undone " +
    "on the user's end by re-joining the guild. Are you sure " +
    "you want to continue?",
    "You are about to ban this user from the guild. This " +
    "action is very hard to undo " +
    "and should only be used for the most serious offenses. " +
    "Are you sure you want to continue?",
    "Confirm whether you really want to delete this message " +
    "by saying `yes` or `no`.",
    "Confirm whether you really want to kick this user off " +
    "the guild by saying `yes` or `no`.",
    "Confirm whether you really want to ban this user from " +
    "the guild by saying `yes` or `no`.",
    "Sorry, I didn't understand that. Please reply with " +
    "`yes` or `no` or click one " +
    "of the buttons above.")

  const EYE: string := "\U{1F441}"
  const WASTEBASKET: string := "\U{1F5D1}"
  const BOOT: string := "\U{1F97E}"
  const SKULL: string := "\U{1F480}"

  /** An entry of a guild's ban list: the reason given, if any, and the banned user. The user,
      not the entry, carries the id. */
  datatype BanEntry = BanEntry(reason: Option<string>, user: UserId)

  /** `discord.utils.find` over the ban list, comparing each entry's user with `author`. */
  predicate Banned(bans: seq<BanEntry>, author: UserId) {
    exists i :: 0 <= i < |bans| && bans[i].user == author
  }

  /** What the guild answers while a step runs: whether the reported message is in a DM channel,
      whether its author is still a member, the guild's ban list (None when the bot may not read
      it), the author, whether the moderation call Discord is asked for succeeds, and the time of
      day a warning about a resolved report quotes. */
  datatype Guild = Guild(inDm: bool, member: bool, bans: Option<seq<BanEntry>>, author: UserId, succeeds: bool, clock: string)

  /** The dialogue's state and snapshot, and the report's claim. */
  datatype Config = Config(control: Control<AState>, claim: Claim)

  /** A step: the new configuration and what the channel saw. */
  datatype Response = Response(config: Config, acts: seq<Action<AState>>)

  /** Which corrections are applied: `awaited` awaits the transitions the code starts without
      awaiting, `banFixed` compares each ban entry's user with the reported author. As written,
      both ban checks read `.id` of the ban entries, which have none, and the one in
      `perform_action` also reads `self.message`, which the dialogue does not have; either raises
      AttributeError on the first entry. */
  datatype Version = Version(awaited: bool, banFixed: bool)

  const FIXED: Version := Version(true, true)
  const AS_WRITTEN: Version := Version(false, false)

  /** A button that runs `trigger` when toggled, on every message it is attached to. */
  function Button(emoji: string, trigger: Trigger<AState>): Output<AState> {
    React(ReactionConfig(emoji, [], [], [trigger], false))
  }

  /** The command text with the six buttons: 👁 toggles the visibility, 🗑 🥾 💀 ask for a
      confirmation, 🚫 unassigns and ✅ resolves. */
  function Menu(text: string): (outs: seq<Output<AState>>)
    ensures |outs| == 7 && outs[0] == Text(text)
  {
    [Text(text),
     Button(EYE, Act("toggle_visibility")),
     Button(WASTEBASKET, GoTo(CONFIRM_DELETE)),
     Button(BOOT, GoTo(CONFIRM_KICK)),
     Button(SKULL, GoTo(CONFIRM_BAN)),
     Button(Helpers.NO_ENTRY, Act("unassign")),
     Button(Helpers.CHECK_MARK, Act("resolve"))]
  }

  /** The yes/no question of a confirmation state, its buttons frozen in that state. */
  function Confirmation(question: string, s: AState): seq<Output<AState>> {
    [Text(question), YesButton(s), NoButton(s)]
  }

  /** The warning `perform_action` gives instead of acting: on a new report, on a resolved one, and
      on one assigned to someone else. A report that is not new but has no assignee makes the
      guards read an attribute of None. */
  function Refusal(t: Wording, c: Claim, reviewer: UserId, clock: string): (w: Option<Action<AState>>)
    ensures w.None? <==> HeldBy(c, reviewer)
    ensures c.status == NEW ==> w == Some(Says([Card(t.notAssigned)]))
    ensures w.Some? && w.value.Does? ==> !Coherent(c)
  {
    if c.status == NEW then Some(Says([Card(t.notAssigned)]))
    else if c.assignee.None? then Some(Does(Raised("AttributeError")))
    else if c.status == RESOLVED then Some(Says([Card(t.resolvedBy + MentionOf(c.assignee.value) + " on " + clock + ".")]))
    else if c.assignee.value != reviewer then Some(Says([Card(t.assignedTo + MentionOf(c.assignee.value) + ".")]))
    else None
  }

  /** `self.state = REVIEW_START`. */
  function AtStart(c: Config): Config {
    Config(Control(REVIEW_START, c.control.prequit), c.claim)
  }

  /** `transition_to_state(REVIEW_RESTART)`: its handler sets the state to REVIEW_START and lists the
      commands again. */
  function Restarted(t: Wording, c: Config): (r: Response)
    ensures r.config == AtStart(c) && r.acts == [Says([Text(t.restart)])]
  {
    Response(AtStart(c), [Says([Text(t.restart)])])
  }

  /** `a`, then the step `r`. */
  function Then(a: Action<AState>, r: Response): Response {
    Response(r.config, [a] + r.acts)
  }

  /** What the moderator is told after asking Discord for `action`. */
  function Outcome(t: Wording, action: string, ok: bool): (r: string)
    ensures ok ==> r in {t.hidden, t.revealed, t.deleted, t.kicked, t.banned}
    ensures !ok ==> r in {t.hideProblem, t.revealProblem, t.deleteProblem, t.kickProblem, t.banProblem}
    ensures action == "ban" ==> r == if ok then t.banned else t.banProblem
  {
    if action == "hide" then (if ok then t.hidden else t.hideProblem)
    else if action == "reveal" then (if ok then t.revealed else t.revealProblem)
    else if action == "delete" then (if ok then t.deleted else t.deleteProblem)
    else if action == "kick" then (if ok then t.kicked else t.kickProblem)
    else if ok then t.banned else t.banProblem
  }

  /** The moderation call itself, the report of its outcome, and the return to the menu. */
  function Carried(t: Wording, c: Config, action: string, ok: bool): (r: Response)
    ensures r.config == AtStart(c).(claim := Moderated(c.claim, action, ok))
    ensures |r.acts| == 3 && r.acts[0] == Does(ModerationDone(action, ok))
    ensures ModeratesOnly(r.acts, [action])
  {
    var r := Restarted(t, c.(claim := Moderated(c.claim, action, ok)));
    Response(r.config, [Does(ModerationDone(action, ok)), Says([Card(Outcome(t, action, ok))])] + r.acts)
  }

  /** `hide`, `reveal` and `delete`: a message already deleted is only noted (as written, the
      return to the menu is started without being awaited, so it never happens). */
  function OnMessage(t: Wording, c: Config, action: string, g: Guild, v: Version): (r: Response)
    ensures c.claim.deleted ==> r.config.claim == c.claim && |r.acts| > 0 && r.acts[0] == Says([Card(t.alreadyDeleted)])
    ensures c.claim.deleted && !v.awaited ==> r == Response(c, [Says([Card(t.alreadyDeleted)])])
    ensures c.claim.deleted && v.awaited ==> r.config == AtStart(c)
    ensures !c.claim.deleted ==> r == Carried(t, c, action, g.succeeds)
    ensures ModeratesOnly(r.acts, [action])
  {
    if c.claim.deleted then
      var note := Says([Card(t.alreadyDeleted)]);
      if v.awaited then Then(note, Restarted(t, c)) else Response(c, [note])
    else Carried(t, c, action, g.succeeds)
  }

  /** `kick`: not from a DM channel, and not when the author has left the guild. */
  function Kick(t: Wording, c: Config, g: Guild): (r: Response)
    ensures r.config.claim == c.claim && r.config.control.state == REVIEW_START
    ensures Does(ModerationDone("kick", g.succeeds)) in r.acts <==> !g.inDm && g.member
    ensures ModeratesOnly(r.acts, ["kick"])
  {
    if g.inDm then Response(AtStart(c), [Says([Card(t.kickInDm)])])
    else if !g.member then Response(AtStart(c), [Says([Card(t.gone)])])
    else Carried(t, c, "kick", g.succeeds)
  }

  /** `ban`: not from a DM channel, nor without the right to read the bans, nor when the author is
      already banned. As written the ban-list test raises as soon as the list is not empty. */
  function Ban(t: Wording, c: Config, g: Guild, v: Version): (r: Response)
    ensures r.config.claim == c.claim
    ensures g.inDm || g.bans.None? ==> r.config == AtStart(c) && |r.acts| == 1
    ensures !g.inDm && g.bans.Some? && g.bans.value != [] && !v.banFixed ==> r == Response(c, [Does(Raised("AttributeError"))])
    ensures Does(ModerationDone("ban", g.succeeds)) in r.acts <==>
              (!g.inDm && g.bans.Some? && !Banned(g.bans.value, g.author) && (v.banFixed || g.bans.value == []))
    ensures ModeratesOnly(r.acts, ["ban"])
  {
    if g.inDm then Response(AtStart(c), [Says([Card(t.banInDm)])])
    else if g.bans.None? then Response(AtStart(c), [Says([Card(t.noBanRight)])])
    else if !v.banFixed && g.bans.value != [] then Response(c, [Does(Raised("AttributeError"))])
    else if Banned(g.bans.value, g.author) then Response(AtStart(c), [Says([Card(t.alreadyBanned)])])
    else Carried(t, c, "ban", g.succeeds)
  }

  /** The action `toggle_visibility` stands for. */
  function Meant(action: string, hidden: bool): (r: string)
    ensures action != "toggle_visibility" ==> r == action
    ensures action == "toggle_visibility" ==> r in {"hide", "reveal"} && (r == "reveal" <==> hidden)
  {
    if action == "toggle_visibility" then (if hidden then "reveal" else "hide") else action
  }

  /** `perform_action(action)`: the guards, then the action. */
  function Perform(t: Wording, c: Config, reviewer: UserId, action: string, g: Guild, v: Version): (r: Response)
    ensures Refusal(t, c.claim, reviewer, g.clock).Some? ==> r == Response(c, [Refusal(t, c.claim, reviewer, g.clock).value])
    ensures HeldBy(c.claim, reviewer) && action == "unassign" ==> r == Response(Config(c.control, Unassigned(c.claim)), [Says([Card(t.unassigned)])])
    ensures HeldBy(c.claim, reviewer) && action == "resolve" ==> r == Response(Config(c.control, Resolved(c.claim)), [Says([Card(t.thanks)])])
    ensures r.config.control.prequit == c.control.prequit
    ensures r.config.control.state == c.control.state || r.config.control.state == REVIEW_START
    ensures Coherent(c.claim) ==> Coherent(r.config.claim)
    ensures ModeratesOnly(r.acts, [Meant(action, c.claim.hidden)])
    ensures !HeldBy(c.claim, reviewer) ==> r.config.claim == c.claim && ModeratesOnly(r.acts, [])
  {
    match Refusal(t, c.claim, reviewer, g.clock)
    case Some(w) => Response(c, [w])
    case None =>
      var a := Meant(action, c.claim.hidden);
      if a == "hide" || a == "reveal" || a == "delete" then OnMessage(t, c, a, g, v)
      else if a == "kick" then Kick(t, c, g)
      else if a == "ban" then Ban(t, c, g, v)
      else if a == "unassign" then Response(Config(c.control, Unassigned(c.claim)), [Says([Card(t.unassigned)])])
      else if a == "resolve" then Response(Config(c.control, Resolved(c.claim)), [Says([Card(t.thanks)])])
      else Response(c, [])
  }

  /** `transition_to_state(s)`: the state becomes `s` and its handler is introduced. The
      confirmation states first check that the action is possible at all, and fall back to
      REVIEW_START when it is not; REVIEW_QUIT unassigns. */
  function Transition(t: Wording, c: Config, s: AState, reviewer: UserId, g: Guild, v: Version): (r: Response)
    ensures r.config.control.prequit == c.control.prequit
    ensures r.config.control.state in {s, REVIEW_START}
    ensures s != REVIEW_QUIT ==> r.config.claim == c.claim
    ensures s == REVIEW_QUIT ==> r == Perform(t, Config(Control(s, c.control.prequit), c.claim), reviewer, "unassign", g, v)
    ensures ModeratesOnly(r.acts, [])
  {
    var c1 := Config(Control(s, c.control.prequit), c.claim);
    match s
    case REVIEW_START => Response(c1, [Says([Text(t.assignedIntro)]), Does(ReportShown), Says(Menu(t.menu))])
    case REVIEW_RESTART => Restarted(t, c)
    case CONFIRM_DELETE =>
      if c.claim.deleted then Response(AtStart(c), [Says([Card(t.alreadyDeleted)])])
      else Response(c1, [Says(Confirmation(t.deleteQuestion, CONFIRM_DELETE))])
    case CONFIRM_KICK =>
      if g.inDm then Response(AtStart(c), [Says([Card(t.kickInDm)])])
      else if !g.member then Response(AtStart(c), [Says([Card(t.gone)])])
      else Response(c1, [Says(Confirmation(t.kickQuestion, CONFIRM_KICK))])
    case CONFIRM_BAN =>
      if g.inDm then Response(AtStart(c), [Says([Card(t.banInDm)])])
      else if g.bans.None? then Response(AtStart(c), [Says([Card(t.noBanRight)])])
      else if !v.banFixed && g.bans.value != [] then Response(c1, [Does(Raised("AttributeError"))])
      else if Banned(g.bans.value, g.author) then Response(AtStart(c), [Says([Card(t.alreadyBanned)])])
      else Response(c1, [Says(Confirmation(t.banQuestion, CONFIRM_BAN))])
    case REVIEW_QUIT => Perform(t, c1, reviewer, "unassign", g, v)
  }

  /** `help <name>`: the help of one command. */
  function CommandHelp(t: Wording, name: string): (r: string)
    ensures name in COMMANDS ==> r in {t.hideHelp, t.revealHelp, t.deleteHelp, t.kickHelp, t.banHelp, t.unassignHelp, t.resolveHelp}
    ensures name !in COMMANDS ==> r == t.noSuch + name + t.noHelpTail
    ensures name == "kick" ==> r == t.kickHelp
  {
    if name == "hide" then t.hideHelp
    else if name == "reveal" then t.revealHelp
    else if name == "delete" then t.deleteHelp
    else if name == "kick" then t.kickHelp
    else if name == "ban" then t.banHelp
    else if name == "unassign" then t.unassignHelp
    else if name == "resolve" then t.resolveHelp
    else t.noSuch + name + t.noHelpTail
  }

  /** The commands `help <name>` knows. */
  const COMMANDS: seq<string> := ["hide", "reveal", "delete", "kick", "ban", "unassign", "resolve"]

  /** The commands typed in REVIEW_START that act at once. */
  const IMMEDIATE: seq<string> := ["hide", "reveal", "unassign", "resolve"]

  /** `review_start` on a reply (lower-cased): help, help on one command, or a command. A reply
      without any word raises when its first word is looked up. */
  function StartTyped(t: Wording, c: Config, text: string, reviewer: UserId, g: Guild, v: Version): (r: Response)
    ensures ModeratesOnly(r.acts, ["hide", "reveal"])
    ensures !HeldBy(c.claim, reviewer) ==> r.config.claim == c.claim && ModeratesOnly(r.acts, [])
    ensures Coherent(c.claim) ==> Coherent(r.config.claim)
  {
    var m := Lower(text);
    if m in HELP_KEYWORDS then Response(c, [Says(Menu(t.helpMenu))])
    else StartWords(t, c, m, reviewer, g, v)
  }

  /** A reply in REVIEW_START that is not a help keyword, by its words: help on one command, or a
      command. */
  function StartWords(t: Wording, c: Config, m: string, reviewer: UserId, g: Guild, v: Version): (r: Response)
    ensures ModeratesOnly(r.acts, ["hide", "reveal"])
    ensures !HeldBy(c.claim, reviewer) ==> r.config.claim == c.claim && ModeratesOnly(r.acts, [])
    ensures Coherent(c.claim) ==> Coherent(r.config.claim)
  {
    if Split(m) == [] then Response(c, [Does(Raised("IndexError"))])
    else if Split(m)[0] in HELP_KEYWORDS then Helped(t, c, m)
    else StartCommand(t, c, m, reviewer, g, v)
  }

  /** `help <name>`: the help of the command named after the first word, which changes nothing. */
  function Helped(t: Wording, c: Config, m: string): (r: Response)
    requires Split(m) != []
    ensures r.config == c && ModeratesOnly(r.acts, [])
  {
    Response(c, [Says([Text(HelpOn(t, m))])])
  }

  function HelpOn(t: Wording, m: string): (r: string)
    requires Split(m) != []
    ensures r in {t.hideHelp, t.revealHelp, t.deleteHelp, t.kickHelp, t.banHelp, t.unassignHelp, t.resolveHelp}
            || t.noSuch <= r
  {
    SplitHeadFits(m);
    CommandHelp(t, Strip(m[|Split(m)[0]|..]))
  }

  /** A command typed in REVIEW_START: an immediate command, a cancel keyword (which unassigns), or
      a command that asks for a confirmation first. */
  function StartCommand(t: Wording, c: Config, m: string, reviewer: UserId, g: Guild, v: Version): (r: Response)
    ensures ModeratesOnly(r.acts, ["hide", "reveal"])
    ensures !HeldBy(c.claim, reviewer) ==> r.config.claim == c.claim && ModeratesOnly(r.acts, [])
    ensures Coherent(c.claim) ==> Coherent(r.config.claim)
  {
    if m in IMMEDIATE then
      var r := Perform(t, c, reviewer, m, g, v);
      assert ModeratesOnly(r.acts, ["hide", "reveal"]) by {
        if m == "unassign" || m == "resolve" {
          assert ModeratesOnly(r.acts, []);
        }
      }
      r
    else if m in CANCEL_KEYWORDS then Perform(t, c, reviewer, "unassign", g, v)
    else if m == "delete" then Transition(t, c, CONFIRM_DELETE, reviewer, g, v)
    else if m == "kick" then Transition(t, c, CONFIRM_KICK, reviewer, g, v)
    else if m == "ban" then Transition(t, c, CONFIRM_BAN, reviewer, g, v)
    else Response(c, [Says([Text(t.noSuch + m + t.noCommandTail)])])
  }

  /** A confirmation state on a reply: its help, "yes" performs the action, "no" returns to the
      menu. */
  function ConfirmTyped(t: Wording, c: Config, text: string, action: string, help: string, reviewer: UserId, g: Guild, v: Version): (r: Response)
    ensures HelpReply<AState>([help], text).None? && Lower(text) in YES_KEYWORDS ==> r == Perform(t, c, reviewer, action, g, v)
    ensures HelpReply<AState>([help], text).None? && Lower(text) in NO_KEYWORDS ==> r == Restarted(t, c)
    ensures ModeratesOnly(r.acts, [Meant(action, c.claim.hidden)])
    ensures !HeldBy(c.claim, reviewer) ==> r.config.claim == c.claim && ModeratesOnly(r.acts, [])
    ensures Coherent(c.claim) ==> Coherent(r.config.claim)
  {
    YesNoDisjoint();
    match HelpReply<AState>([help], text)
    case Some(outs) => Response(c, [Says(outs)])
    case None =>
      if Lower(text) in YES_KEYWORDS then Perform(t, c, reviewer, action, g, v)
      else if Lower(text) in NO_KEYWORDS then Restarted(t, c)
      else Response(c, [Says([Text(t.sorry)])])
  }

  /** `resolve_message(text)`: the handler of the current state. */
  function Handle(t: Wording, c: Config, text: string, reviewer: UserId, g: Guild, v: Version): (r: Response)
    ensures c.control.state in {REVIEW_START, REVIEW_RESTART} ==> ModeratesOnly(r.acts, ["hide", "reveal"])
    ensures c.control.state == REVIEW_RESTART ==> r.config == AtStart(c)
    ensures !HeldBy(c.claim, reviewer) ==> r.config.claim == c.claim && ModeratesOnly(r.acts, [])
    ensures Coherent(c.claim) ==> Coherent(r.config.claim)
  {
    match c.control.state
    case REVIEW_START => StartTyped(t, c, text, reviewer, g, v)
    case REVIEW_RESTART => Restarted(t, c)
    case CONFIRM_DELETE => ConfirmTyped(t, c, text, "delete", t.confirmDeleteHelp, reviewer, g, v)
    case CONFIRM_KICK => ConfirmTyped(t, c, text, "kick", t.confirmKickHelp, reviewer, g, v)
    case CONFIRM_BAN => ConfirmTyped(t, c, text, "ban", t.confirmBanHelp, reviewer, g, v)
    case REVIEW_QUIT => Perform(t, c, reviewer, "unassign", g, v)
  }

  /** `forward_message(text)`: a cancel keyword enters REVIEW_QUIT, whose handler unassigns; anything
      else goes to the current handler. */
  function Respond(t: Wording, c: Config, text: string, reviewer: UserId, g: Guild, v: Version): (r: Response)
    ensures Lower(text) in CANCEL_KEYWORDS && HeldBy(c.claim, reviewer) ==>
      r.config.claim == Unassigned(c.claim) && r.config.control.state == REVIEW_QUIT
    ensures !HeldBy(c.claim, reviewer) ==> r.config.claim == c.claim && ModeratesOnly(r.acts, [])
    ensures Coherent(c.claim) ==> Coherent(r.config.claim)
  {
    if Lower(text) in CANCEL_KEYWORDS then
      Perform(t, Config(CancelledFixed(c.control, REVIEW_QUIT), c.claim), reviewer, "unassign", g, v)
    else Handle(t, c, text, reviewer, g, v)
  }

  /** A button of the dialogue fires: a simulated reply (only while the state is the one it was
      frozen in), a transition, or an action. */
  function Pressed(t: Wording, c: Config, trigger: Trigger<AState>, reviewer: UserId, g: Guild, v: Version): (r: Response)
    ensures trigger.SimulateReply? && c.control.state != trigger.frozen ==> r == Response(c, [])
    ensures trigger.GoTo? ==> ModeratesOnly(r.acts, [])
    ensures !HeldBy(c.claim, reviewer) ==> r.config.claim == c.claim && ModeratesOnly(r.acts, [])
  {
    match trigger
    case SimulateReply(frozen, reply) =>
      if c.control.state == frozen then Respond(t, c, reply, reviewer, g, v) else Response(c, [])
    case GoTo(s) => Transition(t, c, s, reviewer, g, v)
    case Act(action) => Perform(t, c, reviewer, action, g, v)
    case OpenReport => Response(c, [])
  }

  /** Every moderation call among `acts` is one of `allowed`. */
  predicate ModeratesOnly(acts: seq<Action<AState>>, allowed: seq<string>) {
    forall k :: 0 <= k < |acts| && acts[k].Does? && acts[k].effect.ModerationDone? ==> acts[k].effect.action in allowed
  }

  /** Only the assignee of a report being handled changes anything about it: whatever anyone
      else types, the report's claim is unchanged and Discord is asked for nothing. */
  lemma OnlyTheAssigneeActs(t: Wording, c: Config, text: string, reviewer: UserId, g: Guild, v: Version)
    requires !HeldBy(c.claim, reviewer)
    ensures var r := Respond(t, c, text, reviewer, g, v);
      r.config.claim == c.claim && ModeratesOnly(r.acts, [])
  {
  }

  /** Deleting the message, kicking or banning its author always takes a confirmation: typed in any
      other state, a reply at most hides or reveals the message; typed in a confirmation state, it
      at most carries out the action being confirmed. */
  lemma IrreversibleActionsAreConfirmed(t: Wording, c: Config, text: string, reviewer: UserId, g: Guild, v: Version)
    ensures var r := Respond(t, c, text, reviewer, g, v);
      match c.control.state
      case CONFIRM_DELETE => ModeratesOnly(r.acts, ["delete"])
      case CONFIRM_KICK => ModeratesOnly(r.acts, ["kick"])
      case CONFIRM_BAN => ModeratesOnly(r.acts, ["ban"])
      case _ => ModeratesOnly(r.acts, ["hide", "reveal"])
  {
  }

  /** Whatever is typed, a coherent report stays coherent: new exactly when nobody is assigned. */
  lemma CoherenceKept(t: Wording, c: Config, text: string, reviewer: UserId, g: Guild, v: Version)
    requires Coherent(c.claim)
    ensures Coherent(Respond(t, c, text, reviewer, g, v).config.claim)
  {
    if Lower(text) !in CANCEL_KEYWORDS {
      assert Respond(t, c, text, reviewer, g, v) == Handle(t, c, text, reviewer, g, v);
    }
  }

  /** 👁 flips the visibility of a message that is still there, when Discord carries it out. */
  lemma EyeFlipsVisibility(t: Wording, c: Config, reviewer: UserId, g: Guild, v: Version)
    requires HeldBy(c.claim, reviewer) && !c.claim.deleted && g.succeeds
    ensures var r := Pressed(t, c, Act("toggle_visibility"), reviewer, g, v);
      r.config.claim == c.claim.(hidden := !c.claim.hidden) && r.config.control.state == REVIEW_START
      && r.acts[0] == Does(ModerationDone(if c.claim.hidden then "reveal" else "hide", true))
  {
  }

  /** A cancel keyword unassigns the moderator, who is told so; the dialogue rests in REVIEW_QUIT,
      from which every further reply only warns that the report is not assigned. */
  lemma CancelUnassigns(t: Wording, c: Config, text: string, next: string, reviewer: UserId, g: Guild, v: Version)
    requires HeldBy(c.claim, reviewer) && Lower(text) in CANCEL_KEYWORDS
    ensures var r := Respond(t, c, text, reviewer, g, v);
      r.config.claim == Unassigned(c.claim) && r.config.control.state == REVIEW_QUIT
      && r.acts == [Says([Card(t.unassigned)])]
      && Respond(t, r.config, next, reviewer, g, v) == Response(r.config, [Says([Card(t.notAssigned)])])
  {
    var r := Respond(t, c, text, reviewer, g, v);
    if Lower(next) !in CANCEL_KEYWORDS {
      assert Respond(t, r.config, next, reviewer, g, v) == Perform(t, r.config, reviewer, "unassign", g, v);
    }
  }

  /** Once ✅ has resolved a report, it is out of every moderator's hands, its resolver's
      included. */
  lemma ResolvedIsFinal(t: Wording, c: Config, reviewer: UserId, g: Guild, v: Version)
    requires HeldBy(c.claim, reviewer)
    ensures var r := Pressed(t, c, Act("resolve"), reviewer, g, v);
      r.config.claim == Resolved(c.claim) && r.acts == [Says([Card(t.thanks)])]
      && forall other: UserId :: !HeldBy(r.config.claim, other)
  {
  }

  /** Every help and cancel keyword holds a word: it starts with a letter or a question mark. */
  lemma KeywordHasAWord(m: string)
    requires m in HELP_KEYWORDS || m in CANCEL_KEYWORDS
    ensures Split(m) != []
  {
    assert m[0] == 'h' || m[0] == '?' || m[0] == 'c' || m[0] == 'q' || m[0] == 'e';
    LStripNonSpaceStart(m);
  }

  /** A reply without a single word, such as one carrying only an attachment, raises in REVIEW_START
      instead of being answered. */
  lemma WordlessReplyRaises(t: Wording, c: Config, text: string, reviewer: UserId, g: Guild, v: Version)
    requires c.control.state == REVIEW_START && Split(Lower(text)) == []
    ensures Respond(t, c, text, reviewer, g, v) == Response(c, [Does(Raised("IndexError"))])
  {
    var m := Lower(text);
    if m in HELP_KEYWORDS || m in CANCEL_KEYWORDS {
      KeywordHasAWord(m);
    }
    assert Respond(t, c, text, reviewer, g, v) == Handle(t, c, text, reviewer, g, v);
  }

  /** As written, both ban checks raise as soon as the guild has banned anyone: asking for the
      confirmation leaves the dialogue in CONFIRM_BAN without a question, and confirming it does
      nothing; corrected, the question is asked and the ban goes ahead unless the author is
      already banned. */
  lemma BanListAsWritten(t: Wording, c: Config, reviewer: UserId, g: Guild)
    requires c.control.state == CONFIRM_BAN && HeldBy(c.claim, reviewer)
    requires !g.inDm && g.bans.Some? && g.bans.value != []
    ensures Transition(t, c, CONFIRM_BAN, reviewer, g, AS_WRITTEN) == Response(c, [Does(Raised("AttributeError"))])
    ensures Transition(t, c, CONFIRM_BAN, reviewer, g, FIXED) ==
      if Banned(g.bans.value, g.author) then Response(AtStart(c), [Says([Card(t.alreadyBanned)])])
      else Response(c, [Says(Confirmation(t.banQuestion, CONFIRM_BAN))])
    ensures Respond(t, c, "yes", reviewer, g, AS_WRITTEN) == Response(c, [Does(Raised("AttributeError"))])
    ensures var r := Respond(t, c, "yes", reviewer, g, FIXED);
      if Banned(g.bans.value, g.author) then r == Response(AtStart(c), [Says([Card(t.alreadyBanned)])])
      else r.acts[0] == Does(ModerationDone("ban", g.succeeds))
  {
    assert Lower("yes") == "yes";
  }

  /** As written, confirming the deletion of a message that is already gone only says so: the
      return to the menu is never awaited, and the dialogue stays in the confirmation state. */
  lemma DeletedWhileConfirming(t: Wording, c: Config, reviewer: UserId, g: Guild)
    requires c.control.state == CONFIRM_DELETE && HeldBy(c.claim, reviewer) && c.claim.deleted
    ensures Respond(t, c, "yes", reviewer, g, AS_WRITTEN) == Response(c, [Says([Card(t.alreadyDeleted)])])
    ensures Respond(t, c, "yes", reviewer, g, FIXED) ==
      Response(AtStart(c), [Says([Card(t.alreadyDeleted)]), Says([Text(t.restart)])])
  {
    assert Lower("yes") == "yes";
  }

  /** The dialogue object: the report it reviews, the moderator it is held with, and its channel.
      Each method performs the step of the function it names on the flow and on the report. */
  class Review {
    const flow: Flow<AState>
    const report: Report
    const reviewer: UserId
    const texts: Wording

    /** `__init__`: the dialogue starts in REVIEW_START with REVIEW_QUIT as its quit state; the
        introduction is its first transition, which the caller runs with `TransitionToState`. */
    constructor (report: Report, reviewer: UserId)
      ensures this.report == report && this.reviewer == reviewer && texts == WORDING
      ensures fresh(flow) && flow.trace == [] && flow.Recorded() && Valid()
      ensures Now() == Config(Control(REVIEW_START, None), report.Snapshot())
    {
      this.report, this.reviewer, texts := report, reviewer, WORDING;
      flow := new Flow(REVIEW_START, Some(REVIEW_QUIT));
    }

    predicate Valid()
      reads this
    {
      flow.quitState == Some(REVIEW_QUIT)
    }

    function Now(): Config
      reads this, flow, report
    {
      Config(flow.Current(), report.Snapshot())
    }

    /** The step performed `r`: the dialogue and the report are in `r.config`, and the channel
        gained `r.acts`. */
    twostate predicate Performed(r: Response)
      reads this, flow, report
    {
      Now() == r.config && flow.trace == old(flow.trace) + r.acts && (old(flow.Recorded()) ==> flow.Recorded())
    }

    /** `transition_to_state(s)`: the state becomes `s` and its handler introduces it. */
    method TransitionToState(s: AState, g: Guild)
      modifies flow, report
      ensures Performed(Transition(texts, old(Now()), s, reviewer, g, FIXED))
    {
      flow.SetState(s);
      match s
      case REVIEW_START =>
        flow.Say([Text(texts.assignedIntro)]);
        flow.Do(ReportShown);
        flow.Say(Menu(texts.menu));
      case REVIEW_RESTART => ReviewRestart();
      case CONFIRM_DELETE =>
        if report.deleted {
          flow.Say([Card(texts.alreadyDeleted)]);
          flow.SetState(REVIEW_START);
        } else {
          flow.Say(Confirmation(texts.deleteQuestion, CONFIRM_DELETE));
        }
      case CONFIRM_KICK =>
        if g.inDm {
          flow.Say([Card(texts.kickInDm)]);
          flow.SetState(REVIEW_START);
        } else if !g.member {
          flow.Say([Card(texts.gone)]);
          flow.SetState(REVIEW_START);
        } else {
          flow.Say(Confirmation(texts.kickQuestion, CONFIRM_KICK));
        }
      case CONFIRM_BAN =>
        if g.inDm {
          flow.Say([Card(texts.banInDm)]);
          flow.SetState(REVIEW_START);
        } else if g.bans.None? {
          flow.Say([Card(texts.noBanRight)]);
          flow.SetState(REVIEW_START);
        } else if Banned(g.bans.value, g.author) {
          flow.Say([Card(texts.alreadyBanned)]);
          flow.SetState(REVIEW_START);
        } else {
          flow.Say(Confirmation(texts.banQuestion, CONFIRM_BAN));
        }
      case REVIEW_QUIT => PerformAction("unassign", g);
    }

    /** `transition_to_state(REVIEW_RESTART)`. */
    method Restart()
      modifies flow
      ensures Performed(Restarted(texts, old(Now())))
    {
      flow.SetState(REVIEW_RESTART);
      ReviewRestart();
    }

    /** `review_restart`: back to REVIEW_START, listing the commands again. */
    method ReviewRestart()
      modifies flow
      ensures Performed(Restarted(texts, old(Now())))
    {
      flow.SetState(REVIEW_START);
      flow.Say([Text(texts.restart)]);
    }

    /** `perform_action(action)`: the guards, then the action. */
    method PerformAction(action: string, g: Guild)
      modifies flow, report
      ensures Performed(Perform(texts, old(Now()), reviewer, action, g, FIXED))
    {
      if report.status == NEW {
        flow.Say([Card(texts.notAssigned)]);
        return;
      }
      if report.status == RESOLVED {
        if report.assignee.None? {
          flow.Do(Raised("AttributeError"));
        } else {
          flow.Say([Card(texts.resolvedBy + MentionOf(report.assignee.value) + " on " + g.clock + ".")]);
        }
        return;
      }
      if report.assignee.None? {
        flow.Do(Raised("AttributeError"));
        return;
      }
      if report.assignee.value != reviewer {
        flow.Say([Card(texts.assignedTo + MentionOf(report.assignee.value) + ".")]);
        return;
      }
      var a := action;
      if a == "toggle_visibility" {
        a := if report.hidden then "reveal" else "hide";
      }
      if a == "hide" || a == "reveal" || a == "delete" {
        MessageAction(a, g);
      } else if a == "kick" {
        KickUser(g);
      } else if a == "ban" {
        BanUser(g);
      } else if a == "unassign" {
        report.Unassign();
        flow.Say([Card(texts.unassigned)]);
      } else if a == "resolve" {
        report.Resolve();
        flow.Say([Card(texts.thanks)]);
      }
    }

    /** `hide`, `reveal` or `delete`, the return to the menu awaited. */
    method MessageAction(a: string, g: Guild)
      modifies flow, report
      ensures Performed(OnMessage(texts, old(Now()), a, g, FIXED))
    {
      if report.deleted {
        flow.Say([Card(texts.alreadyDeleted)]);
        Restart();
        return;
      }
      Carry(a, g);
    }

    /** `kick`. */
    method KickUser(g: Guild)
      modifies flow, report
      ensures Performed(Kick(texts, old(Now()), g))
    {
      if g.inDm {
        flow.Say([Card(texts.kickInDm)]);
        flow.SetState(REVIEW_START);
        return;
      }
      if !g.member {
        flow.Say([Card(texts.gone)]);
        flow.SetState(REVIEW_START);
        return;
      }
      Carry("kick", g);
    }

    /** `ban`, the ban list compared with the reported author. */
    method BanUser(g: Guild)
      modifies flow, report
      ensures Performed(Ban(texts, old(Now()), g, FIXED))
    {
      if g.inDm {
        flow.Say([Card(texts.banInDm)]);
        flow.SetState(REVIEW_START);
        return;
      }
      if g.bans.None? {
        flow.Say([Card(texts.noBanRight)]);
        flow.SetState(REVIEW_START);
        return;
      }
      if Banned(g.bans.value, g.author) {
        flow.Say([Card(texts.alreadyBanned)]);
        flow.SetState(REVIEW_START);
        return;
      }
      Carry("ban", g);
    }

    /** The moderation call, the report of its outcome, and the return to the menu. */
    method Carry(a: string, g: Guild)
      modifies flow, report
      ensures Performed(Carried(texts, old(Now()), a, g.succeeds))
    {
      var done := report.Moderate(a, g.succeeds);
      flow.Do(ModerationDone(a, done));
      flow.Say([Card(Outcome(texts, a, done))]);
      Restart();
    }

    /** `review_start` on a reply. */
    method ReviewStart(text: string, g: Guild)
      modifies flow, report
      ensures Performed(StartTyped(texts, old(Now()), text, reviewer, g, FIXED))
    {
      var m := Lower(text);
      if m in HELP_KEYWORDS {
        flow.Say(Menu(texts.helpMenu));
      } else {
        Words(m, g);
      }
    }

    /** A reply in REVIEW_START by its words. */
    method Words(m: string, g: Guild)
      modifies flow, report
      ensures Performed(StartWords(texts, old(Now()), m, reviewer, g, FIXED))
    {
      var words := Split(m);
      if words == [] {
        flow.Do(Raised("IndexError"));
      } else if words[0] in HELP_KEYWORDS {
        HelpCommand(m);
      } else {
        Command(m, g);
      }
    }

    /** `help <name>` typed in REVIEW_START. */
    method HelpCommand(m: string)
      requires Split(m) != []
      modifies flow
      ensures Performed(Helped(texts, old(Now()), m))
    {
      flow.Say([Text(HelpOn(texts, m))]);
    }

    /** A command typed in REVIEW_START. */
    method Command(m: string, g: Guild)
      modifies flow, report
      ensures Performed(StartCommand(texts, old(Now()), m, reviewer, g, FIXED))
    {
      if m in IMMEDIATE {
        PerformAction(m, g);
      } else if m in CANCEL_KEYWORDS {
        PerformAction("unassign", g);
      } else if m == "delete" {
        TransitionToState(CONFIRM_DELETE, g);
      } else if m == "kick" {
        TransitionToState(CONFIRM_KICK, g);
      } else if m == "ban" {
        TransitionToState(CONFIRM_BAN, g);
      } else {
        flow.Say([Text(texts.noSuch + m + texts.noCommandTail)]);
      }
    }

    /** `confirm_delete`, `confirm_kick` or `confirm_ban` on a reply. */
    method Confirm(text: string, action: string, help: string, g: Guild)
      modifies flow, report
      ensures Performed(ConfirmTyped(texts, old(Now()), text, action, help, reviewer, g, FIXED))
    {
      var h := HelpReply<AState>([help], text);
      if h.Some? {
        flow.Say(h.value);
      } else if Lower(text) in YES_KEYWORDS {
        PerformAction(action, g);
      } else if Lower(text) in NO_KEYWORDS {
        Restart();
      } else {
        flow.Say([Text(texts.sorry)]);
      }
    }

    /** `resolve_message(text)`: the current state's handler. */
    method ResolveMessage(text: string, g: Guild)
      modifies flow, report
      ensures Performed(Handle(texts, old(Now()), text, reviewer, g, FIXED))
    {
      match flow.state
      case REVIEW_START => ReviewStart(text, g);
      case REVIEW_RESTART => ReviewRestart();
      case CONFIRM_DELETE => Confirm(text, "delete", texts.confirmDeleteHelp, g);
      case CONFIRM_KICK => Confirm(text, "kick", texts.confirmKickHelp, g);
      case CONFIRM_BAN => Confirm(text, "ban", texts.confirmBanHelp, g);
      case REVIEW_QUIT => PerformAction("unassign", g);
    }

    /** `forward_message` on a reply as it is passed in: a cancel keyword enters REVIEW_QUIT, whose
        handler unassigns. */
    method Forward(input: string, g: Guild)
      requires Valid()
      modifies flow, report
      ensures Performed(Respond(texts, old(Now()), input, reviewer, g, FIXED))
    {
      if flow.IsCancel(input) {
        flow.Cancel();
        PerformAction("unassign", g);
      } else {
        ResolveMessage(input, g);
      }
    }

    /** `forward_message` on a message the moderator typed: its content is stripped first. */
    method ForwardMessage(content: string, g: Guild)
      requires Valid()
      modifies flow, report
      ensures Performed(Respond(texts, old(Now()), Strip(content), reviewer, g, FIXED))
    {
      Forward(Strip(content), g);
    }

    /** A button of the dialogue fires. */
    method Press(trigger: Trigger<AState>, g: Guild)
      requires Valid()
      modifies flow, report
      ensures Performed(Pressed(texts, old(Now()), trigger, reviewer, g, FIXED))
    {
      match trigger
      case SimulateReply(frozen, reply) =>
        if flow.state == frozen {
          Forward(reply, g);
        }
      case GoTo(s) => TransitionToState(s, g);
      case Act(action) => PerformAction(action, g);
      case OpenReport =>
    }
  }
}
