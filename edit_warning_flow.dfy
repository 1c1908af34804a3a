/** The dialogue opened when a user edits a message into something the classifier flags: the
    author may re-edit it or have the bot re-send it, while a ten-minute countdown runs, at the end
    of which the message is deleted. The model follows the corrected behaviour; the behaviour as
    written is kept beside it (`Version`) for the lemmas that exhibit the differences. */
module EditWarningFlow {
  import opened Wrappers
  import opened Text
  import opened Consts
  import opened Reactions
  import opened FlowEngine
  import opened FlowTable
  import opened Scores

  datatype EState = START | RESEND | UNACCEPTABLE_EDIT | ACCEPTABLE_EDIT | TIME_EXPIRED

  /** `expiration_time`, in seconds: ten minutes. */
  const EXPIRATION: nat := 600

  /** `"{:02}".format(n)` for a non-negative number. */
  function Pad2(n: nat): (s: string)
    ensures AllDigits(s) && DecimalValue(s) == n
    ensures n < 100 ==> |s| == 2
  {
    DecimalRoundTrip(n);
    if n < 10 then
      var d := DecimalString(n);
      assert d == [DigitChar(n)];
      var s := "0" + d;
      assert s[..1] == "0" && s[..1][..0] == [];
      s
    else
      assert n < 100 ==> DecimalString(n) == DecimalString(n / 10) + [DigitChar(n % 10)];
      DecimalString(n)
  }

  /** The countdown `timer_embed` shows: `divmod(seconds_left, 60)`, each part padded to two digits. */
  function TimerText(left: nat): (r: string)
    ensures left < 6000 ==> |r| == 5 && r[2] == ':'
  {
    Pad2(left / 60) + ":" + Pad2(left % 60)
  }

  /** The countdown reads back as the seconds left: minutes and seconds of two digits each, the
      seconds below 60. */
  lemma TimerTextReadsBack(left: nat)
    requires left < 6000
    ensures var t := TimerText(left);
      |t| == 5 && t[2] == ':' && AllDigits(t[..2]) && AllDigits(t[3..])
      && DecimalValue(t[3..]) < 60 && DecimalValue(t[..2]) * 60 + DecimalValue(t[3..]) == left
  {
    var t := TimerText(left);
    assert t[..2] == Pad2(left / 60);
    assert t[3..] == Pad2(left % 60);
  }

  /** What the warning is about: the author, whether the message was explicit, the abuse type and
      the phrase completing "has been flagged" (empty when there is none). */
  datatype Facts = Facts(author: UserId, explicit: bool, reason: Option<AbuseType>, explanation: string)

  /** The dialogue's texts, as `say` dedents them. */
  datatype Wording = Wording(
    flagged: string,
    options: string,
    howTo: string,
    help: string,
    sorry: string,
    stillFlagged: string,
    thanks: string,
    expired: string)

  const WORDING: Wording := Wording(
    "Your edited message below has been flagged",
    "\n" +
    "You have the option to either edit it back into " +
    "something less inappropriate, " +
    "or have the bot re-send your message with the new edit.\n" +
    "Note however that the message will appear back at the " +
    "bottom of the channel " +
    "instead of where it is now.\n",
    "\n" +
    "You can re-edit it now if you wish to do that, or say " +
    "`re-send` to have the bot " +
    "re-send the message with this new edit. You can also " +
    "push the button below to " +
    "re-send it.\n" +
    "If no action is taken within ten minutes, the bot will " +
    "delete the message from " +
    "the channel altogether.\n",
    "Either say `re-send` to have the bot re-send your newly " +
    "edited message, or make " +
    "another edit to your message to something less " +
    "inappropriate. If no action is " +
    "taken within ten minutes, the message will be deleted.",
    "Sorry, I didn't understand that. Say `re-send` to have " +
    "the bot re-send your " +
    "message, or make another to your edited message to " +
    "something less inappropriate.",
    "The edit you just made to your message has still been " +
    "flagged. Please make an " +
    "edit to something less inappropriate, or say `re-send` " +
    "to have the bot re-send " +
    "your message.",
    "Your message has been edited to something less " +
    "inappropriate. Thank you for " +
    "taking the time to reconsider your message.",
    "Your edited message was deleted due to inaction.")

  const SPEECH_BALLOON: string := "\U{1F5E8}"

  /** The words that ask for a re-send. */
  const RESEND_WORDS: seq<string> := ["resend", "re-send", "send"]

  /** The 🗨 button: a click goes to RESEND, whatever the state. */
  const RESEND_BUTTON: Output<EState> := React(ReactionConfig(SPEECH_BALLOON, [GoTo(RESEND)], [], [], true))

  /** The introduction of START: what was flagged and why, the message, the two options and the
      button. The countdown message follows it. */
  function Intro(t: Wording, f: Facts, m: Msg): (r: seq<Output<EState>>)
    ensures |r| == 5 && r[1] == Card(m.content) && r[4] == RESEND_BUTTON
    ensures r[2..4] == [Text(t.options), Text(t.howTo)]
    ensures f.explanation == [] ==> r[0] == Text(t.flagged + ".")
  {
    assert f.explanation == [] ==> t.flagged + [] + "." == t.flagged + ".";
    [Text(t.flagged + (if f.explanation != "" then " " + f.explanation else "") + "."),
     Card(m.content),
     Text(t.options),
     Text(t.howTo),
     RESEND_BUTTON]
  }

  /** The state of the dialogue: its control state, the watched message (an edit replaces it), the
      seconds elapsed, whether the countdown still runs, whether its message is shown, whether the
      flagged message was deleted, and whether the 🗨 button still listens. */
  datatype Config = Config(
    state: EState,
    message: Msg,
    elapsed: nat,
    ticking: bool,
    timerShown: bool,
    deleted: bool,
    button: bool)

  /** The countdown never runs past the expiration: it stops when the time is up. */
  predicate Counting(c: Config) {
    c.elapsed <= EXPIRATION && (c.ticking ==> c.elapsed < EXPIRATION)
  }

  /** The countdown of `d` is that of `c`, or has stopped. */
  predicate Later(c: Config, d: Config) {
    d.elapsed == c.elapsed && (d.ticking ==> c.ticking)
  }

  /** What the client's tables answer at the moment of a step: what removing the flow from its
      author's list would raise, and which messages await an edit. */
  datatype Env = Env(removal: Option<string>, watched: set<MessageId>)

  /** A step: the new configuration, what the channel saw, and whether the flow left its author's
      list (and then, as far as it was there, the pending-edit table). */
  datatype Response = Response(config: Config, acts: seq<Action<EState>>, left: bool)

  /** Which of the corrections are applied: `FIXED` is the model, `AS_WRITTEN` the code as it stands. */
  datatype Version = Version(editFixed: bool, stillBadFixed: bool, resendFixed: bool, closeFixed: bool)

  const FIXED: Version := Version(true, true, true, true)
  const AS_WRITTEN: Version := Version(false, false, false, false)

  /** `still_bad` as written in `edited`. */
  function StillBadAsWritten(s: TextScores): (b: bool)
    ensures b ==> s.spam > 0.8 || EditVerdict(s).Some?
    ensures s.threat > 0.75 || s.identityAttack > 0.75 || s.severeToxicity > 0.9 || s.toxicity > 0.9 || s.insult > 0.9 ==> b
  {
    s.spam > 0.8 || s.threat > 0.75 || s.identityAttack > 0.75 || s.severeToxicity > 0.9
    || s.toxicity > 0.9 || s.insult > 0.9
  }

  /** `still_bad` as intended: the written rules, and every rule that flags an edit. */
  function StillBad(s: TextScores): (b: bool)
    ensures EditVerdict(s).Some? ==> b
    ensures StillBadAsWritten(s) ==> b
    ensures b ==> EditVerdict(s).Some? || s.spam > 0.8
  {
    StillBadAsWritten(s) || EditVerdict(s).Some?
  }

  /** As written, an edit that is still sexually explicit, or still flirtatious, counts as
      acceptable although the same scores flag an edit in the first place. */
  lemma StillBadMissesExplicitEdits()
    ensures var s := TextScores(0.0, 0.0, 0.0, 0.0, 0.0, 0.0, 0.95, 0.0);
      !StillBadAsWritten(s) && EditVerdict(s) == Some(Verdict(true, SEXUAL, "as sexually explicit")) && StillBad(s)
    ensures var s := TextScores(0.0, 0.0, 0.0, 0.0, 0.0, 0.0, 0.0, 0.85);
      !StillBadAsWritten(s) && EditVerdict(s) == Some(Verdict(false, HARASS, "as flirtation")) && StillBad(s)
  {
  }

  /** Whether `close()` gets through: the flow is in its author's list and the message awaits an
      edit. */
  predicate CloseSucceeds(c: Config, env: Env) {
    env.removal.None? && c.message.id in env.watched
  }

  /** The first part of `close()`: the corrected close stops the countdown, then the countdown
      message is deleted. */
  function Stopping(c: Config, v: Version): (r: seq<Action<EState>>)
    ensures |r| <= 2 && forall a :: a in r ==> a.Does?
    ensures Does(TimerCancelled) in r <==> v.closeFixed && c.ticking
    ensures Does(TimerRemoved) in r <==> c.timerShown
    ensures Does(Closed) !in r && Does(FlaggedMessageDeleted) !in r
  {
    (if v.closeFixed && c.ticking then [Does(TimerCancelled)] else []) + (if c.timerShown then [Does(TimerRemoved)] else [])
  }

  /** The rest of `close()`: leaving the author's list (a KeyError or ValueError when the flow is not
      there), then the pending-edit table (a KeyError when the message is not there). */
  function Leaving(c: Config, env: Env): (r: seq<Action<EState>>)
    ensures |r| == 1 && r[0].Does?
    ensures r == [Does(Closed)] <==> CloseSucceeds(c, env)
    ensures env.removal.Some? ==> r == [Does(Raised(env.removal.value))]
  {
    if env.removal.Some? then [Does(Raised(env.removal.value))]
    else if c.message.id !in env.watched then [Does(Raised("KeyError"))]
    else [Does(Closed)]
  }

  /** `close()` followed, when it got through, by `say`. */
  function Finishing(c: Config, env: Env, v: Version, say: Option<string>): (r: Response)
    ensures r.config == c.(timerShown := false, ticking := c.ticking && !v.closeFixed)
    ensures r.left <==> env.removal.None?
    ensures Does(Closed) in r.acts <==> CloseSucceeds(c, env)
    ensures Does(FlaggedMessageDeleted) !in r.acts
  {
    var acts := Stopping(c, v) + Leaving(c, env) + (if CloseSucceeds(c, env) && say.Some? then [Says([Text(say.value)])] else []);
    assert Does(Closed) in acts <==> Does(Closed) in Leaving(c, env);
    Response(c.(timerShown := false, ticking := c.ticking && !v.closeFixed), acts, env.removal.None?)
  }

  /** `close()`. */
  function Closing(c: Config, env: Env, v: Version): (r: Response)
    ensures r.config == c.(timerShown := false, ticking := c.ticking && !v.closeFixed)
    ensures !v.closeFixed && c.ticking ==> r.config.ticking
    ensures Does(Closed) in r.acts <==> CloseSucceeds(c, env)
    ensures r.left <==> env.removal.None?
    ensures forall a :: a in r.acts ==> a.Does?
  {
    Finishing(c, env, v, None)
  }

  /** ACCEPTABLE_EDIT: close, then thank the author. */
  function Accepting(t: Wording, c: Config, env: Env, v: Version): (r: Response)
    ensures r.config == c.(timerShown := false, ticking := c.ticking && !v.closeFixed)
    ensures Does(Closed) in r.acts <==> CloseSucceeds(c, env)
    ensures Says([Text(t.thanks)]) in r.acts <==> CloseSucceeds(c, env)
    ensures Does(FlaggedMessageDeleted) !in r.acts && (r.left <==> env.removal.None?)
  {
    Finishing(c, env, v, Some(t.thanks))
  }

  /** The first steps of TIME_EXPIRED: the countdown is cancelled and the message deleted. */
  function ExpiryHead(c: Config): seq<Action<EState>> {
    (if c.ticking then [Does(TimerCancelled)] else []) + (if c.deleted then [] else [Does(FlaggedMessageDeleted)])
  }

  /** TIME_EXPIRED: the countdown stops, the flagged message is deleted (a message already gone is
      ignored), the flow closes and says why. */
  function Expiring(t: Wording, c: Config, env: Env, v: Version): (r: Response)
    ensures r.config == c.(state := TIME_EXPIRED, ticking := false, deleted := true, timerShown := false)
    ensures Does(FlaggedMessageDeleted) in r.acts <==> !c.deleted
    ensures Does(Closed) in r.acts <==> CloseSucceeds(c, env)
    ensures r.left <==> env.removal.None?
  {
    var fin := Finishing(c.(state := TIME_EXPIRED, ticking := false, deleted := true), env, v, Some(t.expired));
    var acts := ExpiryHead(c) + fin.acts;
    assert Does(FlaggedMessageDeleted) in acts <==> Does(FlaggedMessageDeleted) in ExpiryHead(c);
    assert Does(Closed) in acts <==> Does(Closed) in fin.acts;
    Response(fin.config, acts, fin.left)
  }

  /** The re-posted content: behind a spoiler when the message was explicit. */
  function Republished(content: string, explicit: bool): string {
    if explicit && content != [] then "||" + content + "||" else content
  }

  /** RESEND: the flagged message is deleted, and (corrected) re-posted and the flow closed. As
      written the re-post calls a method the client does not have. Deleting a message already
      deleted raises. */
  function Resending(f: Facts, c: Config, env: Env, v: Version): (r: Response)
    ensures r.config.state == RESEND && r.config.deleted && Later(c, r.config)
    ensures c.deleted ==> r.acts == [Does(Raised("NotFound"))] && !r.left
    ensures !c.deleted ==> r.acts != [] && r.acts[0] == Does(FlaggedMessageDeleted)
    ensures !c.deleted && !v.resendFixed ==> r.acts == [Does(FlaggedMessageDeleted), Does(Raised("AttributeError"))] && !r.left
    ensures !c.deleted && v.resendFixed ==> |r.acts| >= 2 && r.acts[1] == Does(Resent("", Republished(c.message.content, f.explicit)))
                                            && (r.left <==> env.removal.None?)
                                            && (Does(Closed) in r.acts <==> CloseSucceeds(c, env))
  {
    var c1 := c.(state := RESEND);
    if c.deleted then Response(c1, [Does(Raised("NotFound"))], false)
    else if !v.resendFixed then Response(c1.(deleted := true), [Does(FlaggedMessageDeleted), Does(Raised("AttributeError"))], false)
    else
      var cl := Finishing(c1.(deleted := true), env, v, None);
      var acts := [Does(FlaggedMessageDeleted), Does(Resent("", Republished(c.message.content, f.explicit)))] + cl.acts;
      assert Does(Closed) in acts <==> Does(Closed) in cl.acts;
      Response(cl.config, acts, cl.left)
  }

  /** `edited(new_message)`: the watched message becomes the new one; as written the scoring calls
      a method the client does not have; corrected, a still-flagged edit returns to START and an
      acceptable one closes the dialogue. */
  function Editing(t: Wording, c: Config, m: Msg, s: TextScores, env: Env, v: Version): (r: Response)
    ensures r.config.message == m && Later(c, r.config)
    ensures !v.editFixed ==> r == Response(c.(message := m), [Does(Raised("AttributeError"))], false)
    ensures v.editFixed && v.stillBadFixed && EditVerdict(s).Some? ==> r.config.state == START && r.acts == [Says([Text(t.stillFlagged)])]
    ensures v.editFixed && (if v.stillBadFixed then !StillBad(s) else !StillBadAsWritten(s)) ==>
              r.config.state == ACCEPTABLE_EDIT && (Does(Closed) in r.acts <==> CloseSucceeds(c.(message := m), env))
              && (r.config.ticking <==> c.ticking && !v.closeFixed)
    ensures Does(FlaggedMessageDeleted) !in r.acts
  {
    var c1 := c.(message := m);
    if !v.editFixed then Response(c1, [Does(Raised("AttributeError"))], false)
    else if (if v.stillBadFixed then StillBad(s) else StillBadAsWritten(s)) then
      Response(c1.(state := START), [Says([Text(t.stillFlagged)])], false)
    else Accepting(t, c1.(state := ACCEPTABLE_EDIT), env, v)
  }

  /** A reply typed in the current state (stripped), as `resolve_message` dispatches it. */
  function Typing(t: Wording, f: Facts, c: Config, text: string, env: Env, v: Version): (r: Response)
    ensures c.state == START && Lower(text) in HELP_KEYWORDS ==> r == Response(c, [Says([Text(t.help)])], false)
    ensures c.state == START && Lower(text) !in HELP_KEYWORDS && Lower(text) in RESEND_WORDS ==> r == Resending(f, c, env, v)
    ensures c.state == START && Lower(text) !in HELP_KEYWORDS && Lower(text) !in RESEND_WORDS ==> r == Response(c, [Says([Text(t.sorry)])], false)
    ensures c.state == RESEND ==> r == Resending(f, c, env, v)
    ensures c.state == UNACCEPTABLE_EDIT ==> r == Response(c.(state := START), [Says([Text(t.stillFlagged)])], false)
    ensures c.state == ACCEPTABLE_EDIT ==> r == Accepting(t, c, env, v)
    ensures c.state == TIME_EXPIRED ==> r == Expiring(t, c, env, v)
  {
    match c.state
    case START =>
      var help := HelpReply<EState>([t.help], text);
      if help.Some? then
        assert help.value == [Text(t.help)];
        Response(c, [Says(help.value)], false)
      else if Lower(text) in RESEND_WORDS then Resending(f, c, env, v)
      else Response(c, [Says([Text(t.sorry)])], false)
    case RESEND => Resending(f, c, env, v)
    case UNACCEPTABLE_EDIT => Response(c.(state := START), [Says([Text(t.stillFlagged)])], false)
    case ACCEPTABLE_EDIT => Accepting(t, c, env, v)
    case TIME_EXPIRED => Expiring(t, c, env, v)
  }

  /** The countdown message, when shown, is edited to show the seconds left. */
  function Showing(c: Config): (r: seq<Action<EState>>)
    requires c.elapsed <= EXPIRATION
    ensures |r| <= 1 && (r != [] <==> c.timerShown)
    ensures r != [] ==> r[0].Does? && r[0].effect.TimerShows? && |r[0].effect.display| == 5 && r[0].effect.display[2] == ':'
  {
    if c.timerShown then [Does(TimerShows(TimerText(EXPIRATION - c.elapsed)))] else []
  }

  /** One second of the countdown: the count goes up, the countdown message shows the seconds
      left, and when the time is up the dialogue goes to TIME_EXPIRED. */
  function Ticking(t: Wording, c: Config, env: Env, v: Version): (r: Response)
    requires c.ticking && Counting(c)
    ensures Counting(r.config)
    ensures c.elapsed + 1 < EXPIRATION ==> r.config == c.(elapsed := c.elapsed + 1) && !r.left
    ensures c.elapsed + 1 < EXPIRATION && c.timerShown ==> r.acts == [Does(TimerShows(TimerText(EXPIRATION - c.elapsed - 1)))]
    ensures c.elapsed + 1 == EXPIRATION ==> r.config.state == TIME_EXPIRED && r.config.deleted && !r.config.ticking
    ensures c.elapsed + 1 == EXPIRATION ==> (Does(FlaggedMessageDeleted) in r.acts <==> !c.deleted)
  {
    var c1 := c.(elapsed := c.elapsed + 1);
    var shows := Showing(c1);
    if c1.elapsed >= EXPIRATION then
      var x := Expiring(t, c1, env, v);
      assert Does(FlaggedMessageDeleted) in shows + x.acts <==> Does(FlaggedMessageDeleted) in x.acts;
      Response(x.config, shows + x.acts, x.left)
    else Response(c1, shows, false)
  }

  /** What reaches the dialogue: a typed reply, an edit of the watched message with its scores, a
      second of the countdown, or a click on 🗨; each with what the client's tables answer then. */
  datatype Input =
    | Typed(text: string, env: Env)
    | Edit(m: Msg, s: TextScores, env: Env)
    | Tick(env: Env)
    | Click(env: Env)

  /** One input; the countdown ticks only while it runs, and the button fires once. */
  function Step(t: Wording, f: Facts, c: Config, e: Input, v: Version): (r: Response)
    requires Counting(c)
    ensures Counting(r.config)
  {
    match e
    case Typed(text, env) => Typing(t, f, c, text, env, v)
    case Edit(m, s, env) => Editing(t, c, m, s, env, v)
    case Tick(env) => if c.ticking then Ticking(t, c, env, v) else Response(c, [], false)
    case Click(env) => if c.button then Resending(f, c.(button := false), env, v) else Response(c, [], false)
  }

  function Run(t: Wording, f: Facts, c: Config, es: seq<Input>, v: Version): (r: Response)
    requires Counting(c)
    ensures Counting(r.config)
    decreases |es|
  {
    if es == [] then Response(c, [], false)
    else
      var r := Step(t, f, c, es[0], v);
      var rest := Run(t, f, r.config, es[1..], v);
      Response(rest.config, r.acts + rest.acts, r.left || rest.left)
  }

  /** `n` seconds of the countdown and nothing else. */
  function Seconds(n: nat, env: Env): (es: seq<Input>)
    ensures |es| == n && forall i :: 0 <= i < n ==> es[i] == Tick(env)
  {
    if n == 0 then [] else [Tick(env)] + Seconds(n - 1, env)
  }

  /** Left alone, the countdown runs out: after the remaining seconds the dialogue is in
      TIME_EXPIRED, the countdown has stopped and the flagged message is deleted. */
  lemma {:induction false} CountdownDeletes(t: Wording, f: Facts, c: Config, env: Env, v: Version)
    requires c.ticking && Counting(c)
    ensures var r := Run(t, f, c, Seconds(EXPIRATION - c.elapsed, env), v);
      r.config.state == TIME_EXPIRED && r.config.deleted && !r.config.ticking
    decreases EXPIRATION - c.elapsed
  {
    var es := Seconds(EXPIRATION - c.elapsed, env);
    var r := Ticking(t, c, env, v);
    assert es[0] == Tick(env) && es[1..] == Seconds(EXPIRATION - c.elapsed - 1, env);
    if c.elapsed + 1 < EXPIRATION {
      CountdownDeletes(t, f, r.config, env, v);
    } else {
      assert es[1..] == [];
    }
  }

  /** Once the countdown has stopped, seconds change nothing. */
  lemma {:induction false} StoppedCountdownIsIdle(t: Wording, f: Facts, c: Config, n: nat, env: Env, v: Version)
    requires !c.ticking && Counting(c)
    ensures Run(t, f, c, Seconds(n, env), v) == Response(c, [], false)
  {
    if n > 0 {
      var es := Seconds(n, env);
      assert es[1..] == Seconds(n - 1, env);
      StoppedCountdownIsIdle(t, f, c, n - 1, env, v);
    }
  }

  /** Corrected, an acceptable edit is kept: the close stops the countdown, so however many
      seconds pass afterwards, nothing is deleted. */
  lemma AcceptedEditIsKept(t: Wording, f: Facts, c: Config, m: Msg, s: TextScores, env: Env, n: nat, later: Env)
    requires Counting(c) && !StillBad(s)
    ensures var r := Editing(t, c, m, s, env, FIXED);
      r.config.state == ACCEPTABLE_EDIT && !r.config.ticking
      && Run(t, f, r.config, Seconds(n, later), FIXED).acts == []
  {
    var r := Editing(t, c, m, s, env, FIXED);
    StoppedCountdownIsIdle(t, f, r.config, n, later, FIXED);
  }

  /** As written, `close()` leaves the countdown running: with the scoring repaired, an acceptable
      edit made in the last second is still deleted when the time runs out. */
  lemma CloseLeavesCountdownRunning(t: Wording, f: Facts, m0: Msg, m: Msg, env: Env)
    requires env.removal.None? && m.id in env.watched
    ensures var v := FIXED.(closeFixed := false);
      var c := Config(START, m0, EXPIRATION - 1, true, true, false, true);
      var good := TextScores(0.0, 0.0, 0.0, 0.0, 0.0, 0.0, 0.0, 0.0);
      var r := Run(t, f, c, [Edit(m, good, env), Tick(env)], v);
      Does(Closed) in r.acts && Does(FlaggedMessageDeleted) in r.acts
  {
    var v := FIXED.(closeFixed := false);
    var c := Config(START, m0, EXPIRATION - 1, true, true, false, true);
    var good := TextScores(0.0, 0.0, 0.0, 0.0, 0.0, 0.0, 0.0, 0.0);
    var a := LastSecondEdit(t, m0, m, env);
    var b := Ticking(t, a.config, env, v);
    RunPair(t, f, c, Edit(m, good, env), Tick(env), v);
  }

  /** With the scoring repaired and `close()` as written, an acceptable edit in the last second
      closes the flow but leaves the countdown running on a message not yet deleted. */
  lemma LastSecondEdit(t: Wording, m0: Msg, m: Msg, env: Env) returns (a: Response)
    requires env.removal.None? && m.id in env.watched
    ensures var good := TextScores(0.0, 0.0, 0.0, 0.0, 0.0, 0.0, 0.0, 0.0);
      a == Editing(t, Config(START, m0, EXPIRATION - 1, true, true, false, true), m, good, env,
                   FIXED.(closeFixed := false))
    ensures Does(Closed) in a.acts && a.config.ticking && a.config.elapsed == EXPIRATION - 1 && !a.config.deleted
  {
    var good := TextScores(0.0, 0.0, 0.0, 0.0, 0.0, 0.0, 0.0, 0.0);
    assert !StillBad(good);
    a := Editing(t, Config(START, m0, EXPIRATION - 1, true, true, false, true), m, good, env,
                 FIXED.(closeFixed := false));
  }

  /** Two inputs in a row: what the first step does, then what the second does. */
  lemma RunPair(t: Wording, f: Facts, c: Config, e1: Input, e2: Input, v: Version)
    requires Counting(c)
    ensures var r1 := Step(t, f, c, e1, v);
      Run(t, f, c, [e1, e2], v).acts == r1.acts + Step(t, f, r1.config, e2, v).acts
  {
    var es := [e1, e2];
    assert es[1..] == [e2] && es[1..][1..] == [];
    var r1 := Step(t, f, c, e1, v);
    var r2 := Step(t, f, r1.config, e2, v);
    assert Run(t, f, r1.config, es[1..], v).acts == r2.acts + [];
  }

  /** As written, every edit of the watched message raises before it is scored, so no edit ever
      ends the dialogue; and asking for a re-send deletes the message and then raises, leaving the
      flow open. */
  lemma AsWrittenEditsAndResendsFail(t: Wording, f: Facts, c: Config, m: Msg, s: TextScores, env: Env)
    requires c.state == START && !c.deleted
    ensures Editing(t, c, m, s, env, AS_WRITTEN).acts == [Does(Raised("AttributeError"))]
    ensures var r := Typing(t, f, c, "re-send", env, AS_WRITTEN);
      r.acts == [Does(FlaggedMessageDeleted), Does(Raised("AttributeError"))] && !r.left
  {
    assert Lower("re-send") == "re-send";
  }

  /** The warning: its flow engine, the client's tables it is listed in, and its countdown. */
  class EditWarning {
    const flow: Flow<EState>
    const table: Table
    const key: FlowKey
    const facts: Facts
    const texts: Wording
    var message: Msg
    var elapsed: nat
    var ticking: bool
    var timerShown: bool
    var deleted: bool
    var button: bool

    /** The flow is made with its countdown started at zero; the caller lists it. */
    constructor (facts: Facts, message: Msg, key: FlowKey, table: Table)
      ensures this.facts == facts && this.key == key && this.table == table && texts == WORDING
      ensures fresh(flow) && flow.trace == [] && flow.Recorded() && flow.quitState.None?
      ensures Now() == Config(START, message, 0, true, false, false, false)
    {
      this.facts, this.message, this.key, this.table, texts := facts, message, key, table, WORDING;
      flow := new Flow(START, None);
      elapsed, ticking, timerShown, deleted, button := 0, true, false, false, false;
    }

    function Now(): Config
      reads this, flow
    {
      Config(flow.state, message, elapsed, ticking, timerShown, deleted, button)
    }

    /** What the client's tables answer now. */
    function Tables(): Env
      reads table
    {
      Env(table.RemovalError(facts.author, key), table.pendingEdit.Keys)
    }

    /** The step performed `r`: the dialogue is in `r.config`, the channel gained `r.acts`, and the
        tables lost this flow and its message exactly when the flow left its list. */
    twostate predicate Performed(r: Response)
      reads this, flow, table
    {
      Now() == r.config
      && flow.trace == old(flow.trace) + r.acts
      && (old(flow.Recorded()) ==> flow.Recorded())
      && table.flows == (if r.left then AfterClose(old(table.flows), facts.author, key) else old(table.flows))
      && table.pendingEdit == (if r.left then old(table.pendingEdit) - {message.id} else old(table.pendingEdit))
    }

    /** The transition to START: the introduction, then the countdown message. */
    method Begin()
      requires Counting(Now())
      modifies this, flow
      ensures Now() == old(Now()).(timerShown := true, button := true)
      ensures flow.trace == old(flow.trace) + [Says(Intro(texts, facts, message)), Says([Card(TimerText(EXPIRATION - elapsed))])]
      ensures old(flow.Recorded()) ==> flow.Recorded()
    {
      var intro := Intro(texts, facts, message);
      var timer := [Card(TimerText(EXPIRATION - elapsed))];
      ghost var before := flow.trace;
      flow.Say(intro);
      button := true;
      flow.Say(timer);
      timerShown := true;
      assert flow.trace == before + [Says(intro)] + [Says(timer)];
    }

    /** `forward_message(text)`: the stripped reply goes to the current state's handler. */
    method ForwardMessage(text: string)
      requires Counting(Now())
      modifies this, flow, table
      ensures Performed(Typing(texts, facts, old(Now()), Strip(text), old(Tables()), FIXED))
    {
      var s := Strip(text);
      match flow.state
      case START =>
        var help := HelpReply<EState>([texts.help], s);
        if help.Some? {
          flow.Say(help.value);
        } else if Lower(s) in RESEND_WORDS {
          Resend();
        } else {
          flow.Say([Text(texts.sorry)]);
        }
      case RESEND => Resend();
      case UNACCEPTABLE_EDIT =>
        flow.SetState(START);
        flow.Say([Text(texts.stillFlagged)]);
      case ACCEPTABLE_EDIT => Accept();
      case TIME_EXPIRED => TimeExpired();
    }

    /** `edited(new_message)`, the classifier's scores of the new text given. */
    method Edited(m: Msg, s: TextScores)
      modifies this, flow, table
      ensures Performed(Editing(texts, old(Now()), m, s, old(Tables()), FIXED))
    {
      message := m;
      if StillBad(s) {
        flow.SetState(START);
        flow.Say([Text(texts.stillFlagged)]);
      } else {
        flow.SetState(ACCEPTABLE_EDIT);
        Accept();
      }
    }

    /** One pass of `_second_timer`, which runs while the countdown has not been cancelled. */
    method Tick()
      requires ticking && Counting(Now())
      modifies this, flow, table
      ensures Performed(Ticking(texts, old(Now()), old(Tables()), FIXED))
    {
      ghost var env := Tables();
      Count();
      if elapsed >= EXPIRATION {
        ghost var shows := Showing(Now());
        ghost var x := Expiring(texts, Now(), env, FIXED).acts;
        TimeExpired();
        Regroup(old(flow.trace), shows, x);
      }
    }

    /** The count goes up by a second and the countdown message shows the seconds left. */
    method Count()
      requires elapsed < EXPIRATION
      modifies this, flow
      ensures Now() == old(Now()).(elapsed := old(elapsed) + 1)
      ensures flow.trace == old(flow.trace) + Showing(Now())
      ensures old(flow.Recorded()) ==> flow.Recorded()
    {
      elapsed := elapsed + 1;
      if timerShown {
        flow.Do(TimerShows(TimerText(EXPIRATION - elapsed)));
      }
    }

    /** A click on 🗨: the button stops listening and the dialogue goes to RESEND. */
    method Click()
      modifies this, flow, table
      ensures Performed(if old(button) then Resending(facts, old(Now()).(button := false), old(Tables()), FIXED) else Response(old(Now()), [], false))
    {
      if button {
        button := false;
        Resend();
      }
    }

    /** RESEND: delete the message, re-post it and close. */
    method Resend()
      modifies this, flow, table
      ensures Performed(Resending(facts, old(Now()), old(Tables()), FIXED))
    {
      flow.SetState(RESEND);
      if deleted {
        flow.Do(Raised("NotFound"));
        return;
      }
      ghost var env := Tables();
      deleted := true;
      flow.Do(FlaggedMessageDeleted);
      flow.Do(Resent("", Republished(message.content, facts.explicit)));
      ghost var posted := [Does(FlaggedMessageDeleted), Does(Resent("", Republished(message.content, facts.explicit)))];
      assert flow.trace == old(flow.trace) + posted;
      ghost var fin := Finishing(Now(), env, FIXED, None);
      Finish(None);
      Regroup(old(flow.trace), posted, fin.acts);
    }

    /** ACCEPTABLE_EDIT: close, then thank the author. */
    method Accept()
      modifies this, flow, table
      ensures Performed(Accepting(texts, old(Now()), old(Tables()), FIXED))
    {
      Finish(Some(texts.thanks));
    }

    /** TIME_EXPIRED: stop the countdown, delete the message, close, and say why. */
    method TimeExpired()
      modifies this, flow, table
      ensures Performed(Expiring(texts, old(Now()), old(Tables()), FIXED))
    {
      ghost var c, env := Now(), Tables();
      Expire();
      ghost var fin := Finishing(Now(), env, FIXED, Some(texts.expired));
      Finish(Some(texts.expired));
      Regroup(old(flow.trace), ExpiryHead(c), fin.acts);
    }

    /** The countdown is cancelled and the flagged message deleted (one already gone is ignored). */
    method Expire()
      modifies this, flow
      ensures Now() == old(Now()).(state := TIME_EXPIRED, ticking := false, deleted := true)
      ensures flow.trace == old(flow.trace) + ExpiryHead(old(Now()))
      ensures old(flow.Recorded()) ==> flow.Recorded()
    {
      flow.SetState(TIME_EXPIRED);
      if ticking {
        flow.Do(TimerCancelled);
      }
      ticking := false;
      if !deleted {
        flow.Do(FlaggedMessageDeleted);
      }
      deleted := true;
    }

    /** `close()`, corrected to stop the countdown first. */
    method Close()
      modifies this, flow, table
      ensures Performed(Closing(old(Now()), old(Tables()), FIXED))
    {
      Finish(None);
    }

    /** `close()` and then, when it got through, `say`. */
    method Finish(say: Option<string>)
      modifies this, flow, table
      ensures Performed(Finishing(old(Now()), old(Tables()), FIXED, say))
    {
      ghost var c, env := Now(), Tables();
      Stop();
      var ok := Leave();
      ghost var x := Stopping(c, FIXED) + Leaving(c, env);
      Regroup(old(flow.trace), Stopping(c, FIXED), Leaving(c, env));
      if ok && say.Some? {
        flow.Say([Text(say.value)]);
        Regroup(old(flow.trace), x, [Says([Text(say.value)])]);
      } else {
        assert x + [] == x;
      }
    }

    /** The countdown stops and its message is deleted. */
    method Stop()
      modifies this, flow
      ensures Now() == old(Now()).(timerShown := false, ticking := false)
      ensures flow.trace == old(flow.trace) + Stopping(old(Now()), FIXED)
      ensures old(flow.Recorded()) ==> flow.Recorded()
    {
      if ticking {
        flow.Do(TimerCancelled);
        ticking := false;
      }
      if timerShown {
        flow.Do(TimerRemoved);
      }
      timerShown := false;
    }

    /** The flow leaves its author's list and then the pending-edit table. */
    method Leave() returns (ok: bool)
      modifies flow, table
      ensures ok <==> CloseSucceeds(old(Now()), old(Tables()))
      ensures flow.trace == old(flow.trace) + Leaving(old(Now()), old(Tables()))
      ensures old(flow.Recorded()) ==> flow.Recorded()
      ensures flow.state == old(flow.state)
      ensures table.flows == (if old(Tables()).removal.None? then AfterClose(old(table.flows), facts.author, key) else old(table.flows))
      ensures table.pendingEdit == (if old(Tables()).removal.None? then old(table.pendingEdit) - {message.id} else old(table.pendingEdit))
    {
      var err := table.Remove(facts.author, key);
      if err.Some? {
        flow.Do(Raised(err.value));
        return false;
      }
      var missing := table.Forget(message.id);
      if missing.Some? {
        flow.Do(Raised(missing.value));
        return false;
      }
      flow.Do(Closed);
      return true;
    }
  }
}
