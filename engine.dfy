/** The conversation engine every dialogue is built on: a flow is in one state at a time, may have
    a quit state that the cancel keywords divert to, keeps a one-slot snapshot of the state it was
    cancelled from, and talks to its user through `say`, which sends texts, cards and files in order
    and attaches each reaction to the message sent last. The Discord channel is an append-only log
    of events with abstract message ids. */
module FlowEngine {
  import opened Wrappers
  import opened Text
  import opened Consts
  import opened Textwrap
  import opened Reactions
  import Helpers

  /** An attachment as the preview sees it: images have a height, other files do not. */
  datatype Attachment = Attachment(height: Option<nat>)

  /** A Discord message as the dialogues see it. */
  datatype Msg = Msg(id: MessageId, author: UserId, content: string, attachments: seq<Attachment>)

  function CountImages(atts: seq<Attachment>): (n: nat)
    ensures n <= |atts|
  {
    if atts == [] then 0 else (if atts[0].height.Some? then 1 else 0) + CountImages(atts[1..])
  }

  function CountFiles(atts: seq<Attachment>): (n: nat)
    ensures n <= |atts|
  {
    if atts == [] then 0 else (if atts[0].height.None? then 1 else 0) + CountFiles(atts[1..])
  }

  /** Every attachment is counted once, as an image or as a file. */
  lemma {:induction false} ImagesAndFiles(atts: seq<Attachment>)
    ensures CountImages(atts) + CountFiles(atts) == |atts|
    ensures CountImages(atts) == 0 <==> forall k :: 0 <= k < |atts| ==> atts[k].height.None?
  {
    if atts != [] {
      ImagesAndFiles(atts[1..]);
      assert forall k :: 1 <= k < |atts| ==> atts[k] == atts[1..][k - 1];
    }
  }

  const NO_CONTENT: string := "*[No message content]*"

  function Plural(n: nat): string {
    if n > 1 then "s" else ""
  }

  /** "*2 images & 1 file*", "*1 image*", "*3 files*". */
  function CountLabel(images: nat, files: nat): string {
    if images > 0 && files > 0 then
      "*" + DecimalString(images) + " image" + Plural(images) + " & " + DecimalString(files) + " file" + Plural(files) + "*"
    else if images > 0 then "*" + DecimalString(images) + " image" + Plural(images) + "*"
    else "*" + DecimalString(files) + " file" + Plural(files) + "*"
  }

  /** `message_preview_text`: the stripped text, then " + " when there are also attachments, then
      the image and file counts; a placeholder when there is neither text nor attachment. */
  function MessagePreviewText(content: string, atts: seq<Attachment>): (r: string)
    ensures Strip(content) == [] && atts == [] ==> r == NO_CONTENT
    ensures Strip(content) != [] ==> |Strip(content)| <= |r| && r[..|Strip(content)|] == Strip(content)
    ensures atts == [] && Strip(content) != [] ==> r == Strip(content)
    ensures atts != [] ==> var tail := CountLabel(CountImages(atts), CountFiles(atts));
      |tail| <= |r| && r[|r| - |tail|..] == tail
  {
    var text := Strip(content);
    if |text| == 0 && |atts| == 0 then NO_CONTENT
    else
      var prefix := if |text| > 0 then text + (if |atts| > 0 then " + " else "") else "";
      prefix + (if |atts| > 0 then CountLabel(CountImages(atts), CountFiles(atts)) else "")
  }

  /** The count tail starts with "*" and a digit. */
  lemma CountLabelStartsWithDigit(images: nat, files: nat)
    ensures |CountLabel(images, files)| >= 2 && CountLabel(images, files)[0] == '*'
    ensures IsDigit(CountLabel(images, files)[1])
  {
    var d := if images > 0 then DecimalString(images) else DecimalString(files);
    assert IsDigit(d[0]);
  }

  /** The placeholder is shown exactly when the message has neither text nor attachments, or when
      its only content is that very placeholder text. */
  lemma PreviewPlaceholder(content: string, atts: seq<Attachment>)
    ensures MessagePreviewText(content, atts) == NO_CONTENT <==>
      atts == [] && (Strip(content) == [] || Strip(content) == NO_CONTENT)
  {
    var text := Strip(content);
    if atts != [] {
      var tail := CountLabel(CountImages(atts), CountFiles(atts));
      CountLabelStartsWithDigit(CountImages(atts), CountFiles(atts));
      var prefix := if |text| > 0 then text + " + " else "";
      var r := prefix + tail;
      assert MessagePreviewText(content, atts) == r;
      assert r[|prefix| + 1] == tail[1];
      HasDigitNotPlaceholder(r, |prefix| + 1);
    }
  }

  /** The placeholder has no digit in it. */
  lemma HasDigitNotPlaceholder(r: string, i: nat)
    requires i < |r| && IsDigit(r[i])
    ensures r != NO_CONTENT
  {
    assert forall k :: 0 <= k < |NO_CONTENT| ==> !IsDigit(NO_CONTENT[k]);
  }

  /** With attachments the preview is the text (if any) joined by " + " to the counts, which are the
      numbers of images and files; without, it is the stripped text. */
  lemma PreviewShape(content: string, atts: seq<Attachment>)
    ensures atts == [] && Strip(content) != [] ==> MessagePreviewText(content, atts) == Strip(content)
    ensures atts != [] && Strip(content) != [] ==>
      MessagePreviewText(content, atts) == Strip(content) + " + " + CountLabel(CountImages(atts), CountFiles(atts))
    ensures atts != [] && Strip(content) == [] ==>
      MessagePreviewText(content, atts) == CountLabel(CountImages(atts), CountFiles(atts))
    ensures CountImages(atts) + CountFiles(atts) == |atts|
  {
    ImagesAndFiles(atts);
  }

  /** A count gets an "s" exactly when it is above one. */
  lemma PluralAboveOne(n: nat)
    ensures Plural(n) == "s" <==> n > 1
    ensures Plural(n) == "" <==> n <= 1
  {
  }

  /** What a reaction handler does when it fires: simulate a reply (only while the flow is still in
      the state the handler was made in), go to a state, run a named review action, or open a new
      report dialogue. */
  datatype Trigger<S> =
    | SimulateReply(frozen: S, reply: string)
    | GoTo(target: S)
    | Act(action: string)
    | OpenReport

  /** What a dialogue hands to `say`: a text, an embed (a card with a description, or the field
      list of a report), a file, or a reaction to put on the message sent before it. */
  datatype Output<S> =
    | Text(s: string)
    | Card(description: string)
    | Alert(title: string, description: string)
    | Fields(fields: seq<(string, string)>, footer: string)
    | Upload(name: string)
    | React(reaction: ReactionConfig<Trigger<S>>)

  /** `user.mention`. */
  function MentionOf(user: UserId): string {
    "<@" + DecimalString(user) + ">"
  }

  /** What a dialogue does besides talking. */
  datatype Effect =
    | Closed                                   // removed itself from the user's flow list
    | Resent(prefix: string, content: string)  // re-posted the flagged message: a prefix post, then the message
    | SosAdded                               // 🆘 was put on the bot's re-post of the message
    | AutomatedReportSent(urgency: nat, abuse: Option<AbuseType>, hidden: bool, deleted: bool)
    | UserReportSent(abuse: Option<AbuseType>, urgent: Option<bool>, comments: Option<string>)
    | TimerCancelled
    | TimerShows(display: string)            // the countdown message was edited to show `display`
    | TimerRemoved                           // the countdown message was deleted
    | FlaggedMessageDeleted
    | NcmecReported
    | HashSaved
    | ModerationDone(action: string, succeeded: bool)
    | ReportShown                            // the report's card was posted to the channel
    | AliasRemoved                           // the bot's re-post of the message and its prefix were deleted
    | Raised(error: string)                    // an exception escaped the handler

  /** One entry of the channel log. A sent message records the output as handed to `say`; what
      the channel displays for it is `Shown`. */
  datatype Event<S> =
    | Sent(id: MessageId, out: Output<S>)
    | Attached(target: Option<MessageId>, reaction: ReactionConfig<Trigger<S>>)
    | Did(effect: Effect)

  /** `dedent` applied by `say`: texts are dedented, anything else is left alone. */
  function Dedented<S>(o: Output<S>): Output<S> {
    if o.Text? then Text(Dedent(o.s)) else o
  }

  /** The event as the channel displays it: sent texts appear dedented. */
  function Shown<S>(e: Event<S>): Event<S> {
    if e.Sent? then Sent(e.id, Dedented(e.out)) else e
  }

  /** The events `say` produces from `id` on, `last` being the message sent last so far. */
  function SayFrom<S>(outs: seq<Output<S>>, id: MessageId, last: Option<MessageId>): (r: seq<Event<S>>)
    ensures |r| == |outs|
  {
    if outs == [] then []
    else if outs[0].React? then [Attached(last, outs[0].reaction)] + SayFrom(outs[1..], id, last)
    else [Sent(id, outs[0])] + SayFrom(outs[1..], id + 1, Some(id))
  }

  /** The events of one `say` call: the last message starts out as None for every call. */
  function SayLog<S>(outs: seq<Output<S>>, base: MessageId): seq<Event<S>> {
    SayFrom(outs, base, None)
  }

  /** How many of the outputs are sent as messages. */
  function SentCount<S>(outs: seq<Output<S>>): nat {
    if outs == [] then 0 else (if outs[0].React? then 0 else 1) + SentCount(outs[1..])
  }

  lemma {:induction false} SentCountAppend<S>(a: seq<Output<S>>, b: seq<Output<S>>)
    ensures SentCount(a + b) == SentCount(a) + SentCount(b)
  {
    if a == [] {
      assert a + b == b;
    } else {
      assert (a + b)[1..] == a[1..] + b;
      SentCountAppend(a[1..], b);
    }
  }

  /** One step of `say`'s loop. */
  lemma SayFromStep<S>(outs: seq<Output<S>>, i: nat, id: MessageId, last: Option<MessageId>)
    requires i < |outs|
    ensures SayFrom(outs[i..], id, last) ==
      if outs[i].React? then [Attached(last, outs[i].reaction)] + SayFrom(outs[i + 1..], id, last)
      else [Sent(id, outs[i])] + SayFrom(outs[i + 1..], id + 1, Some(id))
  {
    assert outs[i..][1..] == outs[i + 1..];
  }

  /** The message a reaction at position k is attached to, defined independently of the loop:
      the last message sent before position k in the same call, if any. */
  function LastSentBefore<S>(outs: seq<Output<S>>, k: nat, base: MessageId): Option<MessageId>
    requires k <= |outs|
  {
    if SentCount(outs[..k]) == 0 then None else Some(base + SentCount(outs[..k]) - 1)
  }

  lemma {:induction false} SayFromAt<S>(outs: seq<Output<S>>, id: MessageId, last: Option<MessageId>, k: nat)
    requires k < |outs|
    ensures SayFrom(outs, id, last)[k] ==
      if outs[k].React? then
        Attached(if SentCount(outs[..k]) == 0 then last else Some(id + SentCount(outs[..k]) - 1), outs[k].reaction)
      else Sent(id + SentCount(outs[..k]), outs[k])
  {
    if k > 0 {
      var id', last' := if outs[0].React? then id else id + 1, if outs[0].React? then last else Some(id);
      SayFromAt(outs[1..], id', last', k - 1);
      assert outs[..k][1..] == outs[1..][..k - 1];
      assert outs[1..][k - 1] == outs[k];
    }
  }

  /** `say` sends the outputs in order, numbering the sent messages from `base`, and attaches every
      reaction to the last message sent before it in the same call (to nothing when there is none). */
  lemma SayLogAt<S>(outs: seq<Output<S>>, base: MessageId, k: nat)
    requires k < |outs|
    ensures outs[k].React? ==> SayLog(outs, base)[k] == Attached(LastSentBefore(outs, k, base), outs[k].reaction)
    ensures !outs[k].React? ==> SayLog(outs, base)[k] == Sent(base + SentCount(outs[..k]), outs[k])
  {
    SayFromAt(outs, base, None, k);
    if outs[k].React? {
      assert SayLog(outs, base)[k] == Attached(LastSentBefore(outs, k, base), outs[k].reaction);
    }
  }

  /** One step a handler takes: a `say` call, or something it does besides talking. */
  datatype Action<S> = Says(outs: seq<Output<S>>) | Does(effect: Effect)

  /** How many messages a run of actions sends. */
  function Issued<S>(acts: seq<Action<S>>): nat {
    if acts == [] then 0
    else
      var last := acts[|acts| - 1];
      Issued(acts[..|acts| - 1]) + (if last.Says? then SentCount(last.outs) else 0)
  }

  /** The channel events a run of actions produces, message ids counted from 0. */
  function Played<S>(acts: seq<Action<S>>): seq<Event<S>> {
    if acts == [] then []
    else
      var init, last := acts[..|acts| - 1], acts[|acts| - 1];
      Played(init) + (if last.Says? then SayLog(last.outs, Issued(init)) else [Did(last.effect)])
  }

  /** Talking performs no effect. */
  lemma {:induction false} SayFromSaysOnly<S>(outs: seq<Output<S>>, id: MessageId, last: Option<MessageId>)
    ensures forall e :: e in SayFrom(outs, id, last) ==> !e.Did?
  {
    if outs != [] {
      if outs[0].React? {
        SayFromSaysOnly(outs[1..], id, last);
      } else {
        SayFromSaysOnly(outs[1..], id + 1, Some(id));
      }
    }
  }

  /** The channel shows exactly the effects of the trace: every effect performed appears in the
      log, and every effect in the log was performed. */
  lemma {:induction false} PlayedEffects<S>(acts: seq<Action<S>>)
    ensures forall e :: e in Played(acts) && e.Did? ==> Does(e.effect) in acts
    ensures forall k :: 0 <= k < |acts| && acts[k].Does? ==> Did(acts[k].effect) in Played(acts)
  {
    if acts != [] {
      var init, last := acts[..|acts| - 1], acts[|acts| - 1];
      PlayedEffects(init);
      if last.Says? {
        SayFromSaysOnly(last.outs, Issued(init), None);
      }
      assert acts == init + [last];
    }
  }

  /** Batches recorded one after another form one log however they are grouped. */
  lemma Regroup<T>(a: seq<T>, b: seq<T>, c: seq<T>)
    ensures a + b + c == a + (b + c)
  {
  }

  /** Playing one more action appends its events. */
  lemma PlayedSnoc<S>(acts: seq<Action<S>>, a: Action<S>)
    ensures Played(acts + [a]) == Played(acts) + (if a.Says? then SayLog(a.outs, Issued(acts)) else [Did(a.effect)])
    ensures Issued(acts + [a]) == Issued(acts) + (if a.Says? then SentCount(a.outs) else 0)
  {
    assert (acts + [a])[..|acts|] == acts;
  }

  /** The buttons a dialogue shows. Each simulates a reply and is frozen in the state it was made in. */
  function YesButton<S>(frozen: S): Output<S> {
    React(ReactionConfig(Helpers.CHECK_MARK, [], [], [SimulateReply(frozen, "yes")], true))
  }

  function NoButton<S>(frozen: S): Output<S> {
    React(ReactionConfig(Helpers.NO_ENTRY, [], [], [SimulateReply(frozen, "no")], true))
  }

  function DoneButton<S>(frozen: S): Output<S> {
    React(ReactionConfig(Helpers.CHECK_MARK, [], [], [SimulateReply(frozen, "done")], true))
  }

  /** `react_index(i)`: keycap i, whose click simulates the reply `str(i)`. */
  function IndexButton<S>(frozen: S, i: nat): (o: Output<S>)
    requires i <= 10
    ensures o.React? && o.reaction.clicks == [SimulateReply(frozen, DecimalString(i))]
    ensures 1 <= i ==> o.reaction.emoji == Helpers.KEYCAPS[i - 1]
  {
    React(ReactionConfig(INDEX_EMOJI[i], [SimulateReply(frozen, DecimalString(i))], [], [], true))
  }

  /** The pre-quit bookkeeping of a flow: its state and the snapshot taken by a cancel. */
  datatype Control<S> = Control(state: S, prequit: Option<S>)

  /** A cancel keyword AS WRITTEN: the snapshot always takes the current state, even when the
      flow is already in its quit state. */
  function Cancelled<S>(c: Control<S>, quit: S): (r: Control<S>)
    ensures r.state == quit && Reverted(r) == Some(Control(c.state, None))
    ensures c.state == quit ==> r.prequit == Some(quit)
  {
    Control(quit, Some(c.state))
  }

  /** A cancel keyword as intended: a cancel while already in the quit state keeps the snapshot. */
  function CancelledFixed<S(==)>(c: Control<S>, quit: S): (r: Control<S>)
    ensures r.state == quit
    ensures c.state != quit ==> r == Cancelled(c, quit)
    ensures c.state == quit ==> r == c
    ensures SoundSnapshot(c, quit) ==> SoundSnapshot(r, quit)
  {
    if c.state == quit then c else Control(quit, Some(c.state))
  }

  /** `revert`: back to the snapshot, which is cleared; None when there is no snapshot (the call
      on None raises). */
  function Reverted<S>(c: Control<S>): (r: Option<Control<S>>)
    ensures r.Some? <==> c.prequit.Some?
    ensures r.Some? ==> r.value.state == c.prequit.value && r.value.prequit.None?
  {
    if c.prequit.Some? then Some(Control(c.prequit.value, None)) else None
  }

  /** `resolve_message` hands the handler a `revert` exactly when the flow is in its quit state
      with a snapshot. */
  predicate RevertOffered<S(==)>(c: Control<S>, quit: S) {
    c.prequit.Some? && c.state == quit
  }

  /** The invariant the fixed cancel keeps: a flow in its quit state has a snapshot, and the
      snapshot is never the quit state itself. */
  predicate SoundSnapshot<S(==)>(c: Control<S>, quit: S) {
    (c.state == quit ==> c.prequit.Some?) && c.prequit != Some(quit)
  }

  /** Cancelling and then answering "no" returns to the state the cancel was typed in. */
  lemma CancelThenRevert<S>(c: Control<S>, quit: S)
    requires SoundSnapshot(c, quit)
    ensures RevertOffered(CancelledFixed(c, quit), quit)
    ensures Reverted(CancelledFixed(c, quit)).Some?
    ensures c.state != quit ==> Reverted(CancelledFixed(c, quit)).value == Control(c.state, None)
    ensures Reverted(CancelledFixed(c, quit)).value.state != quit
  {
  }

  /** The fixed cancel and the revert both keep the snapshot sound. */
  lemma SoundSnapshotKept<S>(c: Control<S>, quit: S)
    requires SoundSnapshot(c, quit)
    ensures SoundSnapshot(CancelledFixed(c, quit), quit)
    ensures c.prequit.Some? ==> SoundSnapshot(Reverted(c).value, quit)
  {
  }

  /** AS WRITTEN, cancelling twice loses the snapshot: "no" then reverts into the quit state with
      no snapshot left, so the next "no" meets no revert. The fixed cancel returns to the start. */
  lemma CancelTwiceLosesSnapshot<S>(start: S, quit: S)
    requires start != quit
    ensures var c := Cancelled(Cancelled(Control(start, None), quit), quit);
      c.prequit == Some(quit) && Reverted(c) == Some(Control(quit, None))
      && !RevertOffered(Reverted(c).value, quit)
    ensures var c := CancelledFixed(CancelledFixed(Control(start, None), quit), quit);
      Reverted(c) == Some(Control(start, None))
  {
  }

  /** The emoji of `react_index`: keycap 0 to 9, then the "10" key. */
  const INDEX_EMOJI: seq<string> := ["0\U{FE0F}\U{20E3}"] + Helpers.KEYCAPS

  /** The help messages of a state decorated with `help_message`, when the input asks for help. */
  function HelpReply<S>(help: seq<string>, input: string): (r: Option<seq<Output<S>>>)
    ensures r.Some? <==> Lower(input) in HELP_KEYWORDS
    ensures r.Some? ==> |r.value| == |help| && forall k :: 0 <= k < |help| ==> r.value[k] == Text(help[k])
  {
    match Helpers.HelpIntercept(Helpers.Messages(help), input)
    case None => None
    case Some(ms) => Some(seq(|ms|, k requires 0 <= k < |ms| => Text(ms[k])))
  }

  /** A flow's control state and its channel. */
  class Flow<S(==)> {
    var state: S
    const quitState: Option<S>
    var prequit: Option<S>
    var log: seq<Event<S>>
    var nextId: MessageId
    /** Everything the flow said and did, in order. */
    var trace: seq<Action<S>>

    /** The flow starts in `start`; the introduction of the start state is the owner's first
        transition. */
    constructor (start: S, quit: Option<S>)
      ensures state == start && quitState == quit && prequit == None
      ensures log == [] && nextId == 0 && trace == [] && Recorded()
    {
      state, quitState, prequit := start, quit, None;
      log, nextId, trace := [], 0, [];
    }

    /** The channel holds exactly the events of the trace. */
    predicate Recorded()
      reads this
    {
      log == Played(trace) && nextId == Issued(trace)
    }

    /** The state and the snapshot. */
    function Current(): Control<S>
      reads this
    {
      Control(state, prequit)
    }

    /** `message.lower() in CANCEL_KEYWORDS and self._quit_state`. */
    predicate IsCancel(input: string)
      reads this
    {
      Lower(input) in CANCEL_KEYWORDS && quitState.Some?
    }

    /** Whether `resolve_message` passes `revert` to the handler. */
    predicate OffersRevert()
      reads this
    {
      quitState.Some? && RevertOffered(Current(), quitState.value)
    }

    predicate Sound()
      reads this
    {
      quitState.Some? ==> SoundSnapshot(Current(), quitState.value)
    }

    /** `say(msgs)`. */
    method Say(outs: seq<Output<S>>)
      modifies this
      ensures log == old(log) + SayLog(outs, old(nextId))
      ensures nextId == old(nextId) + SentCount(outs)
      ensures trace == old(trace) + [Says(outs)] && (old(Recorded()) ==> Recorded())
      ensures state == old(state) && prequit == old(prequit)
    {
      var sent, id := Compose(outs, nextId);
      PlayedSnoc(trace, Says(outs));
      log, nextId, trace := log + sent, id, trace + [Says(outs)];
    }

    /** The loop of `say`: the events one call sends from message id `first` on, and the next
        free id. */
    static method Compose(outs: seq<Output<S>>, first: MessageId) returns (sent: seq<Event<S>>, id: MessageId)
      ensures sent == SayLog(outs, first) && id == first + SentCount(outs)
    {
      sent, id := [], first;
      var last: Option<MessageId> := None;
      var i := 0;
      while i < |outs|
        invariant 0 <= i <= |outs|
        invariant sent + SayFrom(outs[i..], id, last) == SayLog(outs, first)
        invariant id == first + SentCount(outs[..i])
      {
        var o := outs[i];
        SayFromStep(outs, i, id, last);
        SentCountAppend(outs[..i], [o]);
        assert outs[..i + 1] == outs[..i] + [o];
        if o.React? {
          assert sent + [Attached(last, o.reaction)] + SayFrom(outs[i + 1..], id, last) == SayLog(outs, first);
          sent := sent + [Attached(last, o.reaction)];
        } else {
          assert sent + [Sent(id, o)] + SayFrom(outs[i + 1..], id + 1, Some(id)) == SayLog(outs, first);
          sent := sent + [Sent(id, o)];
          last := Some(id);
          id := id + 1;
        }
        i := i + 1;
      }
      assert outs[..i] == outs && outs[i..] == [];
    }

    /** Records something the dialogue did besides talking. */
    method Do(e: Effect)
      modifies this
      ensures log == old(log) + [Did(e)]
      ensures trace == old(trace) + [Does(e)] && (old(Recorded()) ==> Recorded())
      ensures state == old(state) && prequit == old(prequit) && nextId == old(nextId)
    {
      PlayedSnoc(trace, Does(e));
      log := log + [Did(e)];
      trace := trace + [Does(e)];
    }

    /** `self.state = s`, and the first step of `transition_to_state`. */
    method SetState(s: S)
      modifies this
      ensures state == s
      ensures prequit == old(prequit) && log == old(log) && nextId == old(nextId) && trace == old(trace)
    {
      state := s;
    }

    /** The cancel branch of `forward_message`: the snapshot takes the current state and the flow
        enters its quit state (a cancel typed in the quit state changes nothing). */
    method Cancel()
      requires quitState.Some?
      modifies this
      ensures Current() == CancelledFixed(old(Current()), quitState.value)
      ensures log == old(log) && nextId == old(nextId) && trace == old(trace)
      ensures old(Sound()) ==> Sound()
    {
      if Sound() {
        SoundSnapshotKept(Current(), quitState.value);
      }
      if state != quitState.value {
        prequit := Some(state);
        state := quitState.value;
      }
    }

    /** The last step of `revert`: the snapshot is cleared. */
    method ClearSnapshot()
      modifies this
      ensures prequit == None && state == old(state)
      ensures log == old(log) && nextId == old(nextId) && trace == old(trace)
    {
      prequit := None;
    }

    /** `simulate_reply_handler(reply)`: a handler frozen in the current state. */
    function ReplyHandler(reply: string): (t: Trigger<S>)
      reads this
      ensures t.SimulateReply? && t.frozen == state && t.reply == reply
    {
      SimulateReply(state, reply)
    }

    /** Whether a fired handler acts now: a simulated reply only while the state is the one it
        was frozen in. */
    function Fires(t: Trigger<S>): (b: bool)
      reads this
      ensures !t.SimulateReply? ==> b
      ensures t.SimulateReply? ==> (b <==> t == ReplyHandler(t.reply))
    {
      t.SimulateReply? ==> state == t.frozen
    }

    function ReactYes(): (o: Output<S>)
      reads this
      ensures o.React? && o.reaction.toggles == [ReplyHandler("yes")] && o.reaction.clicks == []
      ensures o.reaction.emoji == Helpers.CHECK_MARK
    {
      YesButton(state)
    }

    function ReactNo(): (o: Output<S>)
      reads this
      ensures o.React? && o.reaction.toggles == [ReplyHandler("no")] && o.reaction.clicks == []
      ensures o.reaction.emoji == Helpers.NO_ENTRY
    {
      NoButton(state)
    }

    function ReactDone(): (o: Output<S>)
      reads this
      ensures o.React? && o.reaction.toggles == [ReplyHandler("done")] && o.reaction.clicks == []
      ensures o.reaction.emoji == Helpers.CHECK_MARK
    {
      DoneButton(state)
    }
  }

  /** The yes/no buttons simulate replies that reach the yes and no branches: they are neither
      help nor cancel keywords, and only fire while the flow stays in the state that made them. */
  lemma ButtonRepliesAreAnswers<S>(f: Flow<S>, s: S)
    ensures Lower(f.ReactYes().reaction.toggles[0].reply) in YES_KEYWORDS
    ensures Lower(f.ReactNo().reaction.toggles[0].reply) in NO_KEYWORDS
    ensures Lower(f.ReactDone().reaction.toggles[0].reply) == "done"
    ensures !f.IsCancel("yes") && !f.IsCancel("no") && !f.IsCancel("done")
    ensures HelpReply<S>([], "yes").None? && HelpReply<S>([], "no").None? && HelpReply<S>([], "done").None?
    ensures f.Fires(SimulateReply(s, "yes")) <==> f.state == s
  {
    assert Lower("yes") == "yes";
    assert Lower("no") == "no";
    assert Lower("done") == "done";
  }
}
