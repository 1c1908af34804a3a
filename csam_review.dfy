/** The dialogue a moderator holds with the bot about an image flagged as child sexual abuse
    material: a warning before the (grayscale) image is shown, then a choice between reporting it
    to NCMEC, turning it into a user report for adult sexual content, unassigning, and resolving.
    Every step that acts on the report first checks that the report is still being handled. The
    model follows the corrected behaviour; the code as written is kept beside it (`Version`) for the
    lemmas that exhibit the differences. */
module CsamReview {
  import opened Wrappers
  import opened Text
  import opened Consts
  import opened Reactions
  import opened FlowEngine
  import opened Claims
  import ContentReviewer
  import Helpers

  datatype CState = START | VIEWING_IMAGE | REPORTING | IS_ADULT | RESOLVING | QUIT

  /** Everything the dialogue says. */
  datatype Wording = Wording(
    startHelp: string,
    viewingHelp: string,
    question: string,
    viewing: string,
    reported: string,
    adultPrompt: string,
    adultFiled: string,
    thanks: string,
    unassigned: string,
    sorryYesNo: string,
    sorryCommands: string)

  const WORDING: Wording := Wording(
    "Say `yes` to view the image, or say `no` to unassign " +
    "yourself.",
    "\n" +
    "        Use one of the following text commands or click " +
    "on the corresponding " +
    "button above.\n" +
    "        \U{1F6BC} `ncmec` \U{2013} Send a report to " +
    "NCMEC and close the report.\n" +
    "        \U{1F51E} `adult` \U{2013} Make a new report " +
    "for adult sexual content.\n" +
    "        \U{1F6AB} `unassign` \U{2013} Unassign yourself " +
    "from this report.\n" +
    "        \U{2705} `resolve` \U{2013} Resolve this report " +
    "without taking any action.\n" +
    "    ",
    "You are about to view a grayscale image that was " +
    "flagged as Child Sexual Abuse " +
    "Material. Are you ready to view it?",
    "Use the buttons below or text commands to take action. " +
    "Say `help` for more information.",
    "You successfully reported the image to NCMEC. This " +
    "report has been resolved.",
    "A new user report for sexual content will be generated " +
    "from this image. If " +
    "you'd like to add any additional comments to the " +
    "report, you can do so here, or " +
    "say `done` to skip.",
    "This report for CSAM has been resolved, and another " +
    "User Report for sexual " +
    "content has been created.",
    "Thank you for resolving this report. It has been " +
    "removed from the list of reports.",
    "You've unassigned yourself from this report. It is now " +
    "up for grabs again.",
    "Sorry, I didn't understand that. Please reply with " +
    "`yes` or `no` or click one " +
    "of the buttons above.",
    "Sorry, I didn't understand that. Say help for a list of " +
    "text commands you can use.")

  const BABY: string := "\U{1F6BC}"
  const ADULTS_ONLY: string := "\U{1F51E}"

  /** Whether the bot re-posted the flagged message, and whether that re-post is still there. */
  datatype Alias = NoAlias | Reposted(present: bool)

  /** What a step meets outside the dialogue: whether deleting the flagged message gets through
      (a refusal or a message already gone is ignored), the bot's re-post of it, the image's file
      name, and the image's hash. */
  datatype Scene = Scene(deletes: bool, alias: Alias, imgName: string, hash: nat)

  /** The dialogue's state and snapshot, the report's claim, the comments of the adult-content
      report, and the reviewer's list of known hashes. */
  datatype Config = Config(control: Control<CState>, claim: Claim, comments: Option<string>, hashes: seq<nat>)

  datatype Response = Response(config: Config, acts: seq<Action<CState>>)

  /** Whether the transitions the typed commands start are awaited, as they are meant to be. */
  datatype Version = Version(awaited: bool)

  const FIXED: Version := Version(true)
  const AS_WRITTEN: Version := Version(false)

  /** Every step of the dialogue only speaks: nothing is reported, deleted, saved or filed. */
  predicate SaysOnly(acts: seq<Action<CState>>) {
    forall k :: 0 <= k < |acts| ==> acts[k].Says?
  }

  /** The dialogue now in state `s`. */
  function Entered(c: Config, s: CState): Config {
    c.(control := Control(s, c.control.prequit))
  }

  /** A button that enters `s` when toggled, on every message it is attached to. */
  function Button(emoji: string, s: CState): Output<CState> {
    React(ReactionConfig(emoji, [], [], [GoTo(s)], false))
  }

  /** The image, then the choices: 🚼 reports to NCMEC, 🔞 files an adult-content report, 🚫
      unassigns and ✅ resolves. */
  function Viewer(t: Wording, imgName: string): (outs: seq<Output<CState>>)
    ensures |outs| == 6 && outs[0] == Upload(imgName)
  {
    [Upload(imgName),
     Text(t.viewing),
     Button(BABY, REPORTING),
     Button(ADULTS_ONLY, IS_ADULT),
     Button(Helpers.NO_ENTRY, QUIT),
     Button(Helpers.CHECK_MARK, RESOLVING)]
  }

  /** `reporting`: while the report is being handled, the image is reported to NCMEC, the flagged
      message and the bot's re-post of it are deleted, the image's hash joins the list, and the
      report is resolved. */
  function Reported(t: Wording, c: Config, sc: Scene): (r: Response)
    ensures c.claim.status != PENDING ==> r == Response(c, [])
    ensures c.claim.status == PENDING ==>
      && r.config == c.(claim := Resolved(c.claim), hashes := c.hashes + [sc.hash])
      && |r.acts| >= 3 && r.acts[0] == Does(NcmecReported) && r.acts[|r.acts| - 1] == Says([Card(t.reported)])
      && Does(HashSaved) in r.acts
      && (Does(FlaggedMessageDeleted) in r.acts <==> sc.deletes)
      && (Does(AliasRemoved) in r.acts <==> sc.alias == Reposted(true))
  {
    if c.claim.status != PENDING then Response(c, [])
    else
      Response(c.(claim := Resolved(c.claim), hashes := c.hashes + [sc.hash]), ReportActs(t, sc))
  }

  /** What `reporting` does on a report being handled, in order. */
  function ReportActs(t: Wording, sc: Scene): (acts: seq<Action<CState>>)
    ensures |acts| >= 3 && acts[0] == Does(NcmecReported) && acts[|acts| - 1] == Says([Card(t.reported)])
  {
    [Does(NcmecReported)] + Removals(sc) + [Does(HashSaved), Says([Card(t.reported)])]
  }

  /** The flagged message is deleted when the bot may delete it, and the bot's re-post of it when
      there is one still present. */
  function Removals(sc: Scene): (acts: seq<Action<CState>>)
    ensures Does(HashSaved) !in acts && Does(NcmecReported) !in acts
    ensures Does(FlaggedMessageDeleted) in acts <==> sc.deletes
    ensures Does(AliasRemoved) in acts <==> sc.alias == Reposted(true)
  {
    (if sc.deletes then [Does(FlaggedMessageDeleted)] else [])
    + (if sc.alias == Reposted(true) then [Does(AliasRemoved)] else [])
  }

  /** `is_adult` introduced: the prompt for comments, with a ✅ that answers `done`. */
  function AdultAsked(t: Wording, c: Config): (r: Response)
    ensures r.config == c && SaysOnly(r.acts)
    ensures c.claim.status != PENDING <==> r.acts == []
  {
    if c.claim.status != PENDING then Response(c, [])
    else Response(c, [Says([Text(t.adultPrompt), DoneButton(IS_ADULT)])])
  }

  /** The adult-content user report is filed with `comments`, and the report resolved. */
  function Filed(t: Wording, c: Config, comments: Option<string>): (r: Response)
    ensures r.config.claim == Resolved(c.claim) && r.config.comments == comments
    ensures r.config.control == c.control && r.config.hashes == c.hashes
    ensures Does(UserReportSent(Some(SEXUAL), Some(false), comments)) in r.acts
    ensures Does(NcmecReported) !in r.acts && Does(HashSaved) !in r.acts
  {
    Response(c.(claim := Resolved(c.claim), comments := comments),
             [Does(UserReportSent(Some(SEXUAL), Some(false), comments)), Says([Card(t.adultFiled)])])
  }

  /** `resolving`: while the report is being handled, it is resolved. */
  function Settled(t: Wording, c: Config): (r: Response)
    ensures c.claim.status != PENDING ==> r == Response(c, [])
    ensures c.claim.status == PENDING ==> r.config == c.(claim := Resolved(c.claim)) && r.acts == [Says([Card(t.thanks)])]
  {
    if c.claim.status != PENDING then Response(c, [])
    else Response(c.(claim := Resolved(c.claim)), [Says([Card(t.thanks)])])
  }

  /** `quit`: while the report is being handled, the moderator is unassigned from it. */
  function Quitting(t: Wording, c: Config): (r: Response)
    ensures c.claim.status != PENDING ==> r == Response(c, [])
    ensures c.claim.status == PENDING ==> r.config == c.(claim := Unassigned(c.claim)) && r.acts == [Says([Card(t.unassigned)])]
  {
    if c.claim.status != PENDING then Response(c, [])
    else Response(c.(claim := Unassigned(c.claim)), [Says([Card(t.unassigned)])])
  }

  /** `is_adult` on a reply: `done` files the report without comments and anything else files it
      with the reply as its comments; `unassign` unassigns instead. As written, that transition is
      never awaited and the code goes on to build the user report, whose `comments` the dialogue
      has never set on this path: AttributeError, before the CSAM report is resolved. */
  function AdultAnswered(t: Wording, c: Config, text: string, v: Version): (r: Response)
    ensures c.claim.status != PENDING ==> r == Response(c, [])
    ensures c.claim.status == PENDING && Lower(text) == "done" ==> r == Filed(t, c, None)
    ensures c.claim.status == PENDING && Lower(text) != "done" && Lower(text) != "unassign" ==> r == Filed(t, c, Some(text))
    ensures c.claim.status == PENDING && Lower(text) == "unassign" ==>
      r == if v.awaited then Quitting(t, Entered(c, QUIT)) else Response(c, [Does(Raised("AttributeError"))])
  {
    if c.claim.status != PENDING then Response(c, [])
    else if Lower(text) == "done" then Filed(t, c, None)
    else if Lower(text) == "unassign" then
      if v.awaited then Quitting(t, Entered(c, QUIT)) else Response(c, [Does(Raised("AttributeError"))])
    else Filed(t, c, Some(text))
  }

  /** `transition_to_state(s)`: the state becomes `s` and its handler is introduced. */
  function Transition(t: Wording, c: Config, s: CState, sc: Scene): (r: Response)
    ensures r.config.control == Control(s, c.control.prequit)
    ensures s in {START, VIEWING_IMAGE, IS_ADULT} ==> r.config == Entered(c, s) && SaysOnly(r.acts)
  {
    var c1 := Entered(c, s);
    match s
    case START => Response(c1, [Says([Text(t.question), YesButton(START), NoButton(START)])])
    case VIEWING_IMAGE => Response(c1, [Says(Viewer(t, sc.imgName))])
    case REPORTING => Reported(t, c1, sc)
    case IS_ADULT => AdultAsked(t, c1)
    case RESOLVING => Settled(t, c1)
    case QUIT => Quitting(t, c1)
  }

  /** `start` on a reply: its help, "yes" shows the image, "no" or "unassign" unassigns. */
  function StartTyped(t: Wording, c: Config, text: string, sc: Scene): (r: Response)
    ensures HelpReply<CState>([t.startHelp], text).None? && Lower(text) in YES_KEYWORDS ==> r == Transition(t, c, VIEWING_IMAGE, sc)
    ensures HelpReply<CState>([t.startHelp], text).None? && Lower(text) in NO_KEYWORDS + ["unassign"] ==> r == Transition(t, c, QUIT, sc)
    ensures r.config.claim == c.claim || r == Transition(t, c, QUIT, sc)
    ensures r.config.hashes == c.hashes && SaysOnly(r.acts)
  {
    YesNoDisjoint();
    match HelpReply<CState>([t.startHelp], text)
    case Some(outs) => Response(c, [Says(outs)])
    case None =>
      if Lower(text) in YES_KEYWORDS then Transition(t, c, VIEWING_IMAGE, sc)
      else if Lower(text) in NO_KEYWORDS + ["unassign"] then Transition(t, c, QUIT, sc)
      else Response(c, [Says([Text(t.sorryYesNo)])])
  }

  /** The state a typed command of `viewing_image` leads to. */
  function Command(m: string): (s: Option<CState>)
    ensures s.Some? <==> m in ["ncmec", "adult", "resolve", "unassign"]
    ensures s.Some? ==> s.value in {REPORTING, IS_ADULT, RESOLVING, QUIT}
  {
    if m == "ncmec" then Some(REPORTING)
    else if m == "adult" then Some(IS_ADULT)
    else if m == "resolve" then Some(RESOLVING)
    else if m == "unassign" then Some(QUIT)
    else None
  }

  /** `viewing_image` on a reply: its help, or a command (as written, the command's transition is
      never awaited, so it does nothing). */
  function ViewingTyped(t: Wording, c: Config, text: string, sc: Scene, v: Version): (r: Response)
    ensures HelpReply<CState>([t.viewingHelp], text).None? && Command(Lower(text)).Some? ==>
      r == if v.awaited then Transition(t, c, Command(Lower(text)).value, sc) else Response(c, [])
    ensures Command(Lower(text)).None? ==> r.config == c && SaysOnly(r.acts)
  {
    match HelpReply<CState>([t.viewingHelp], text)
    case Some(outs) => Response(c, [Says(outs)])
    case None =>
      match Command(Lower(text))
      case Some(s) => if v.awaited then Transition(t, c, s, sc) else Response(c, [])
      case None => Response(c, [Says([Text(t.sorryCommands)])])
  }

  /** `resolve_message(text)`: the handler of the current state. */
  function Handle(t: Wording, c: Config, text: string, sc: Scene, v: Version): (r: Response)
    ensures c.claim.status != PENDING ==>
      r.config.claim == c.claim && r.config.comments == c.comments && r.config.hashes == c.hashes && SaysOnly(r.acts)
    ensures c.control.state == START ==> r.config.claim == c.claim || r == Transition(t, c, QUIT, sc)
  {
    match c.control.state
    case START => StartTyped(t, c, text, sc)
    case VIEWING_IMAGE => ViewingTyped(t, c, text, sc, v)
    case REPORTING => Reported(t, c, sc)
    case IS_ADULT => AdultAnswered(t, c, text, v)
    case RESOLVING => Settled(t, c)
    case QUIT => Quitting(t, c)
  }

  /** `forward_message(text)`: a cancel keyword enters QUIT, whose handler unassigns; anything else
      goes to the current handler. */
  function Respond(t: Wording, c: Config, text: string, sc: Scene, v: Version): (r: Response)
    ensures Lower(text) in CANCEL_KEYWORDS && c.claim.status == PENDING ==>
      r.config.claim == Unassigned(c.claim) && r.config.control.state == QUIT
    ensures c.claim.status != PENDING ==>
      r.config.claim == c.claim && r.config.comments == c.comments && r.config.hashes == c.hashes && SaysOnly(r.acts)
  {
    if Lower(text) in CANCEL_KEYWORDS then Quitting(t, c.(control := CancelledFixed(c.control, QUIT)))
    else Handle(t, c, text, sc, v)
  }

  /** A button of the dialogue fires: a simulated reply (only while the state is the one it was
      frozen in) or a transition. */
  function Pressed(t: Wording, c: Config, trigger: Trigger<CState>, sc: Scene, v: Version): (r: Response)
    ensures trigger.SimulateReply? && c.control.state != trigger.frozen ==> r == Response(c, [])
    ensures trigger.Act? || trigger.OpenReport? ==> r == Response(c, [])
    ensures c.claim.status != PENDING ==>
      r.config.claim == c.claim && r.config.comments == c.comments && r.config.hashes == c.hashes && SaysOnly(r.acts)
  {
    match trigger
    case SimulateReply(frozen, reply) =>
      if c.control.state == frozen then Respond(t, c, reply, sc, v) else Response(c, [])
    case GoTo(s) => Transition(t, c, s, sc)
    case Act(_) => Response(c, [])
    case OpenReport => Response(c, [])
  }

  /** Nothing happens to a report that is no longer being handled: whatever is typed, the report,
      the comments and the hash list are unchanged and the dialogue only speaks. */
  lemma ActsOnlyWhilePending(t: Wording, c: Config, text: string, sc: Scene, v: Version)
    requires c.claim.status != PENDING
    ensures var r := Respond(t, c, text, sc, v);
      r.config.claim == c.claim && r.config.comments == c.comments && r.config.hashes == c.hashes && SaysOnly(r.acts)
  {
  }

  /** The same holds for its buttons. */
  lemma ButtonsActOnlyWhilePending(t: Wording, c: Config, trigger: Trigger<CState>, sc: Scene, v: Version)
    requires c.claim.status != PENDING
    ensures var r := Pressed(t, c, trigger, sc, v);
      r.config.claim == c.claim && r.config.comments == c.comments && r.config.hashes == c.hashes && SaysOnly(r.acts)
  {
    if trigger.SimulateReply? && c.control.state == trigger.frozen {
      ActsOnlyWhilePending(t, c, trigger.reply, sc, v);
    }
  }

  /** 🚼 reports the image once: the report is resolved and its hash saved, and the button pressed
      again does nothing at all. */
  lemma ReportedOnce(t: Wording, c: Config, sc: Scene, again: Scene, v: Version)
    requires c.claim.status == PENDING
    ensures var r := Pressed(t, c, GoTo(REPORTING), sc, v);
      && r.config.claim == Resolved(c.claim) && r.config.hashes == c.hashes + [sc.hash]
      && r.acts[0] == Does(NcmecReported)
      && Pressed(t, r.config, GoTo(REPORTING), again, v) == Response(Entered(r.config, REPORTING), [])
  {
  }

  /** As written, a command typed while the image is shown does nothing, because the transition it
      starts is never awaited; corrected, it enters the command's state. */
  lemma TypedCommandsAsWritten(t: Wording, c: Config, text: string, sc: Scene)
    requires c.control.state == VIEWING_IMAGE && Lower(text) in ["ncmec", "adult", "resolve", "unassign"]
    ensures Respond(t, c, text, sc, AS_WRITTEN) == Response(c, [])
    ensures Respond(t, c, text, sc, FIXED) == Transition(t, c, Command(Lower(text)).value, sc)
  {
    assert Lower(text) !in CANCEL_KEYWORDS && Lower(text) !in HELP_KEYWORDS;
  }

  /** As written, "unassign" typed at the comments prompt neither unassigns the moderator nor
      files anything: it raises, and the dialogue stays at the prompt with the report pending;
      corrected, it unassigns the moderator and files nothing. */
  lemma AdultUnassignAsWritten(t: Wording, c: Config, text: string, sc: Scene)
    requires c.control.state == IS_ADULT && c.claim.status == PENDING && Lower(text) == "unassign"
    ensures Respond(t, c, text, sc, AS_WRITTEN) == Response(c, [Does(Raised("AttributeError"))])
    ensures Respond(t, c, text, sc, FIXED) ==
      Response(Entered(c, QUIT).(claim := Unassigned(c.claim)), [Says([Card(t.unassigned)])])
  {
    assert Lower(text) !in CANCEL_KEYWORDS;
  }

  /** A cancel keyword unassigns the moderator of a report being handled, and the dialogue rests in
      QUIT. */
  lemma CancelUnassigns(t: Wording, c: Config, text: string, sc: Scene, v: Version)
    requires c.claim.status == PENDING && Lower(text) in CANCEL_KEYWORDS
    ensures var r := Respond(t, c, text, sc, v);
      r.config.claim == Unassigned(c.claim) && r.config.control.state == QUIT && r.acts == [Says([Card(t.unassigned)])]
  {
  }

  /** Whatever is typed or pressed, a coherent report stays coherent. */
  lemma CoherenceKept(t: Wording, c: Config, text: string, sc: Scene, v: Version)
    requires Coherent(c.claim)
    ensures Coherent(Respond(t, c, text, sc, v).config.claim)
  {
  }

  /** So does a button. */
  lemma ButtonsKeepCoherence(t: Wording, c: Config, trigger: Trigger<CState>, sc: Scene, v: Version)
    requires Coherent(c.claim)
    ensures Coherent(Pressed(t, c, trigger, sc, v).config.claim)
  {
    if trigger.SimulateReply? {
      CoherenceKept(t, c, trigger.reply, sc, v);
    }
  }


  /** The dialogue object: the report it reviews, the bot's hash list it adds to, its channel, and
      the comments of the adult-content report. Each method performs the step of the function it
      names on the flow, the report and the hash list. */
  class ImageReview {
    const flow: Flow<CState>
    const report: Report
    const store: ContentReviewer.Reviewer
    const texts: Wording
    /** Set by a reply at the comments prompt; None stands for the attribute the Python dialogue
        has not set yet, and nothing reads it before a reply sets it. */
    var comments: Option<string>

    /** `__init__`: the dialogue starts in START with QUIT as its quit state; the introduction is
        its first transition, which the caller runs with `TransitionToState`. */
    constructor (report: Report, store: ContentReviewer.Reviewer)
      requires store.Valid()
      ensures this.report == report && this.store == store && texts == WORDING
      ensures fresh(flow) && flow.trace == [] && flow.Recorded() && Valid()
      ensures Now() == Config(Control(START, None), report.Snapshot(), None, store.hashes)
    {
      this.report, this.store, texts := report, store, WORDING;
      flow := new Flow(START, Some(QUIT));
      comments := None;
    }

    ghost predicate Valid()
      reads this, store
    {
      flow.quitState == Some(QUIT) && store.Valid()
    }

    function Now(): Config
      reads this, flow, report, store
    {
      Config(flow.Current(), report.Snapshot(), comments, store.hashes)
    }

    /** The step performed `r`: the dialogue, the report and the hash list are in `r.config`, and
        the channel gained `r.acts`. */
    twostate predicate Performed(r: Response)
      reads this, flow, report, store
    {
      Now() == r.config && flow.trace == old(flow.trace) + r.acts && (old(flow.Recorded()) ==> flow.Recorded())
    }

    /** `transition_to_state(s)`: the state becomes `s` and its handler introduces it. */
    method TransitionToState(s: CState, sc: Scene)
      requires Valid()
      modifies flow, report, store
      ensures Valid() && Performed(Transition(texts, old(Now()), s, sc))
    {
      flow.SetState(s);
      match s
      case START => flow.Say([Text(texts.question), flow.ReactYes(), flow.ReactNo()]);
      case VIEWING_IMAGE => flow.Say(Viewer(texts, sc.imgName));
      case REPORTING => Reporting(sc);
      case IS_ADULT => IsAdultIntro();
      case RESOLVING => Resolving();
      case QUIT => Quit();
    }

    /** `reporting`. */
    method Reporting(sc: Scene)
      requires Valid()
      modifies flow, report, store
      ensures Valid() && Performed(Reported(texts, old(Now()), sc))
    {
      if report.status == PENDING {
        NotifyNcmec(sc);
      }
    }

    /** `reporting` on a report being handled. */
    method NotifyNcmec(sc: Scene)
      requires Valid() && report.status == PENDING
      modifies flow, report, store
      ensures Valid()
      ensures Performed(Response(old(Now()).(claim := Resolved(old(Now()).claim), hashes := old(Now()).hashes + [sc.hash]),
                                 ReportActs(texts, sc)))
    {
      Announce(sc);
      StoreHash(sc.hash);
    }

    /** The steps of `reporting` on the channel and on the report: NCMEC is notified, the posts
        removed, the hash's saving recorded and the report resolved. */
    method Announce(sc: Scene)
      modifies flow, report
      ensures report.Snapshot() == Resolved(old(report.Snapshot()))
      ensures flow.trace == old(flow.trace) + ReportActs(texts, sc) && (old(flow.Recorded()) ==> flow.Recorded())
      ensures flow.Current() == old(flow.Current())
    {
      ghost var t := flow.trace;
      flow.Do(NcmecReported);
      RemovePosts(sc);
      assert flow.trace == t + ([Does(NcmecReported)] + Removals(sc));
      flow.Do(HashSaved);
      report.Resolve();
      flow.Say([Card(texts.reported)]);
      assert flow.trace == t + ([Does(NcmecReported)] + Removals(sc) + [Does(HashSaved), Says([Card(texts.reported)])]);
    }

    /** `ContentReviewer.save_hash(hash)`: the hash joins the list and its file. */
    method StoreHash(h: nat)
      requires store.Valid()
      modifies store
      ensures store.Valid() && store.hashes == old(store.hashes) + [h]
    {
      store.SaveHash(h);
    }

    /** The deletions of `reporting`. */
    method RemovePosts(sc: Scene)
      modifies flow
      ensures flow.trace == old(flow.trace) + Removals(sc) && (old(flow.Recorded()) ==> flow.Recorded())
      ensures flow.Current() == old(flow.Current())
    {
      if sc.deletes {
        flow.Do(FlaggedMessageDeleted);
      }
      if sc.alias == Reposted(true) {
        flow.Do(AliasRemoved);
      }
    }

    /** `is_adult` introduced, in its own state. */
    method IsAdultIntro()
      requires flow.state == IS_ADULT
      modifies flow
      ensures Performed(AdultAsked(texts, old(Now())))
    {
      if report.status != PENDING {
        return;
      }
      flow.Say([Text(texts.adultPrompt), flow.ReactDone()]);
    }

    /** `is_adult` on a reply, the transition on "unassign" awaited. */
    method IsAdult(text: string)
      modifies this, flow, report
      ensures Performed(AdultAnswered(texts, old(Now()), text, FIXED))
    {
      if report.status != PENDING {
        return;
      }
      if Lower(text) == "done" {
        comments := None;
      } else if Lower(text) == "unassign" {
        flow.SetState(QUIT);
        Quit();
        return;
      } else {
        comments := Some(text);
      }
      flow.Do(UserReportSent(Some(SEXUAL), Some(false), comments));
      report.Resolve();
      flow.Say([Card(texts.adultFiled)]);
    }

    /** `resolving`. */
    method Resolving()
      modifies flow, report
      ensures Performed(Settled(texts, old(Now())))
    {
      if report.status != PENDING {
        return;
      }
      report.Resolve();
      flow.Say([Card(texts.thanks)]);
    }

    /** `quit`. */
    method Quit()
      modifies flow, report
      ensures Performed(Quitting(texts, old(Now())))
    {
      if report.status != PENDING {
        return;
      }
      report.Unassign();
      flow.Say([Card(texts.unassigned)]);
    }

    /** `start` on a reply. */
    method Start(text: string, sc: Scene)
      requires Valid()
      modifies flow, report, store
      ensures Valid() && Performed(StartTyped(texts, old(Now()), text, sc))
    {
      var help := HelpReply<CState>([texts.startHelp], text);
      if help.Some? {
        flow.Say(help.value);
      } else if Lower(text) in YES_KEYWORDS {
        TransitionToState(VIEWING_IMAGE, sc);
      } else if Lower(text) in NO_KEYWORDS + ["unassign"] {
        TransitionToState(QUIT, sc);
      } else {
        flow.Say([Text(texts.sorryYesNo)]);
      }
    }

    /** `viewing_image` on a reply, the command's transition awaited. */
    method ViewingImage(text: string, sc: Scene)
      requires Valid()
      modifies flow, report, store
      ensures Valid() && Performed(ViewingTyped(texts, old(Now()), text, sc, FIXED))
    {
      var help := HelpReply<CState>([texts.viewingHelp], text);
      if help.Some? {
        flow.Say(help.value);
        return;
      }
      var target := Command(Lower(text));
      if target.Some? {
        TransitionToState(target.value, sc);
      } else {
        flow.Say([Text(texts.sorryCommands)]);
      }
    }

    /** `resolve_message(text)`: the current state's handler. */
    method ResolveMessage(text: string, sc: Scene)
      requires Valid()
      modifies this, flow, report, store
      ensures Valid() && Performed(Handle(texts, old(Now()), text, sc, FIXED))
    {
      match flow.state
      case START => Start(text, sc);
      case VIEWING_IMAGE => ViewingImage(text, sc);
      case REPORTING => Reporting(sc);
      case IS_ADULT => IsAdult(text);
      case RESOLVING => Resolving();
      case QUIT => Quit();
    }

    /** `forward_message` on a reply as it is passed in. */
    method Forward(input: string, sc: Scene)
      requires Valid()
      modifies this, flow, report, store
      ensures Valid() && Performed(Respond(texts, old(Now()), input, sc, FIXED))
    {
      if flow.IsCancel(input) {
        flow.Cancel();
        Quit();
      } else {
        ResolveMessage(input, sc);
      }
    }

    /** `forward_message` on a message the moderator typed: its content is stripped first. */
    method ForwardMessage(content: string, sc: Scene)
      requires Valid()
      modifies this, flow, report, store
      ensures Valid() && Performed(Respond(texts, old(Now()), Strip(content), sc, FIXED))
    {
      Forward(Strip(content), sc);
    }

    /** A button of the dialogue fires. */
    method Press(trigger: Trigger<CState>, sc: Scene)
      requires Valid()
      modifies this, flow, report, store
      ensures Valid() && Performed(Pressed(texts, old(Now()), trigger, sc, FIXED))
    {
      match trigger
      case SimulateReply(frozen, reply) =>
        if flow.state == frozen {
          Forward(reply, sc);
        }
      case GoTo(s) => TransitionToState(s, sc);
      case Act(_) =>
      case OpenReport =>
    }
  }
}
