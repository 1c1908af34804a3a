/** The bot itself: how a direct message is routed to the smart-spoiler switch, to the user's
    newest dialogue or to a new report; how an edited channel message is screened; and the
    cascade a new channel message goes through, images first (hash matches, image scores, CSAM
    candidates), then its text, then the 🆘 reaction. Discord's replies, the classifiers and the
    clock are outside the model: their outcomes are parameters. */
module Bot {
  import opened Wrappers
  import opened Text
  import opened Consts
  import FlowEngine
  import opened FlowTable
  import opened Scores
  import opened ContentReviewer
  import opened Reactions

  /** Smart spoilers are on when the bot starts. */
  const SMART_SPOILERS := true

  const TOGGLE_SPOILERS := ".debug smart_spoilers toggle"
  const ENABLE_SPOILERS := ".debug smart_spoilers enable"
  const DISABLE_SPOILERS := ".debug smart_spoilers disable"

  predicate IsSpoilerCommand(c: string) {
    c == TOGGLE_SPOILERS || c == ENABLE_SPOILERS || c == DISABLE_SPOILERS
  }

  // ---------------------------------------------------------------------------------------------
  // Direct messages

  /** Where `handle_dm` sends a direct message. */
  datatype DmRoute =
    | Ignored                   // the bot's own message
    | SpoilersSet(on: bool)     // a smart-spoiler command, acknowledged with the new setting
    | Forwarded(key: FlowKey)   // handed to the user's newest dialogue
    | ReportStarted             // a new report dialogue is opened for the user
    | Hinted                    // the user is told how to start a report

  /** `handle_dm`: the smart-spoiler commands are recognised before anything else; a user with
      open dialogues talks to the newest one; otherwise `report` opens a new one. */
  function DmRouting(fromSelf: bool, content: string, spoilers: bool, open: seq<FlowKey>): (r: DmRoute)
    ensures r.Ignored? <==> fromSelf
    ensures r.SpoilersSet? <==> !fromSelf && IsSpoilerCommand(Lower(Strip(content)))
    ensures r.SpoilersSet? ==>
              r.on == (if Lower(Strip(content)) == TOGGLE_SPOILERS then !spoilers else Lower(Strip(content)) == ENABLE_SPOILERS)
    ensures r.Forwarded? <==> !fromSelf && !IsSpoilerCommand(Lower(Strip(content))) && open != []
    ensures r.Forwarded? ==> r.key == open[|open| - 1]
    ensures r.ReportStarted? <==> !fromSelf && !IsSpoilerCommand(Lower(Strip(content))) && open == []
                                  && Lower(Strip(content)) == "report"
  {
    var c := Lower(Strip(content));
    StartKeywordIsExact(c);
    if fromSelf then Ignored
    else if c == TOGGLE_SPOILERS then SpoilersSet(!spoilers)
    else if c == ENABLE_SPOILERS then SpoilersSet(true)
    else if c == DISABLE_SPOILERS then SpoilersSet(false)
    else if open != [] then Forwarded(open[|open| - 1])
    else if c in START_KEYWORDS then ReportStarted
    else Hinted
  }

  /** The spoiler commands act the same whatever dialogues are open, and toggling twice restores
      the setting. */
  lemma SpoilerCommandsIgnoreDialogues(content: string, spoilers: bool, open: seq<FlowKey>, open': seq<FlowKey>)
    requires IsSpoilerCommand(Lower(Strip(content)))
    ensures DmRouting(false, content, spoilers, open) == DmRouting(false, content, spoilers, open')
    ensures Lower(Strip(content)) == TOGGLE_SPOILERS ==>
              DmRouting(false, content, DmRouting(false, content, spoilers, open).on, open).on == spoilers
  {
  }

  // ---------------------------------------------------------------------------------------------
  // Edited messages

  /** What `on_raw_message_edit` does with an edit. */
  datatype EditRoute =
    | EditIgnored               // not in a server, gone, the bot's own, or blank
    | Delegated(key: FlowKey)   // an edit-warning dialogue already watches the message
    | Notified(verdict: Verdict) // a new edit-warning dialogue is opened
    | Passed                    // nothing flagged

  /** `on_raw_message_edit`: a watched message is handed to its dialogue without being screened;
      any other is screened by the edit cascade, which has no spam rule. */
  function EditRouting(inGuild: bool, found: bool, fromSelf: bool, content: string,
                       pending: Option<FlowKey>, s: TextScores): (r: EditRoute)
    ensures r.EditIgnored? <==> !inGuild || !found || fromSelf || Strip(content) == []
    ensures r.Delegated? <==> !r.EditIgnored? && pending.Some?
    ensures r.Delegated? ==> r.key == pending.value
    ensures r.Notified? <==> !r.EditIgnored? && pending.None? && Flagged(s) && TextVerdict(s).value.abuse != SPAM
    ensures r.Notified? ==> r.verdict == TextVerdict(s).value
  {
    if !inGuild || !found || fromSelf || Strip(content) == [] then EditIgnored
    else if pending.Some? then Delegated(pending.value)
    else match EditVerdict(s)
      case Some(v) => Notified(v)
      case None => Passed
  }

  // ---------------------------------------------------------------------------------------------
  // New channel messages

  /** A message as `handle_channel_message` sees it: where it was posted and what it holds. */
  datatype Incoming = Incoming(msg: FlowEngine.Msg, inDm: bool, inGroupChannel: bool)

  /** Only the group's own channel is screened (direct messages are screened only when the
      switched-off `FILTER_DMS` option is on). */
  predicate Watched(c: Incoming) {
    c.inGroupChannel
  }

  /** What screening a new message does, in order. */
  datatype ChannelEffect =
    | MessageDeleted
    | WarningSent(verdict: Verdict)   // the author is asked whether to send it anyway
    | NcmecFiled(image: nat)          // the attachment matched a listed hash
    | CsamReportPosted(image: nat)    // a CSAM review report goes to the moderators
    | DummyWarningSent                // the author is told the image is sexually suggestive
    | SosReacted
    | Escaped(error: string)          // an exception ended the handler

  /** The progress of the handler: what it has done, whether the message is gone, and whether
      an exception has ended it. */
  datatype Tally = Tally(effects: seq<ChannelEffect>, deleted: bool, stopped: bool)

  const START := Tally([], false, false)

  /** Which of the defects found in the handler are repaired: the `CSAM_HASH` lookups on
      non-image entries, and `mark_as_csam` deleting a message the hash branch already deleted. */
  datatype BotVersion = BotVersion(hashKeyFixed: bool, markFixed: bool)

  const BOT_FIXED := BotVersion(true, true)
  const BOT_AS_WRITTEN := BotVersion(false, false)

  /** `message.delete()`: NotFound when it is already gone, Forbidden without the permission
      (swallowed where the handler catches it), otherwise the message is deleted. */
  function TryDelete(t: Tally, canDelete: bool, catchForbidden: bool): (r: Tally)
    requires !t.stopped
    ensures |t.effects| <= |r.effects| <= |t.effects| + 1 && r.effects[..|t.effects|] == t.effects
    ensures r.deleted <==> t.deleted || canDelete
    ensures r.stopped <==> t.deleted || !(canDelete || catchForbidden)
    ensures MessageDeleted in r.effects[|t.effects|..] <==> !t.deleted && canDelete
  {
    if t.deleted then Tally(t.effects + [Escaped("NotFound")], true, true)
    else if canDelete then Tally(t.effects + [MessageDeleted], true, false)
    else if catchForbidden then t
    else Tally(t.effects + [Escaped("Forbidden")], false, true)
  }

  /** `confirm_user_message`: outside a direct message the message is deleted first; then the
      warning dialogue is opened. */
  function Confirm(t: Tally, v: Verdict, inDm: bool, canDelete: bool): (r: Tally)
    requires !t.stopped
    ensures |r.effects| > |t.effects| && r.effects[..|t.effects|] == t.effects
    ensures r.stopped <==> !inDm && (t.deleted || !canDelete)
    ensures !r.stopped ==> r.effects[|r.effects| - 1] == WarningSent(v) && (inDm || r.deleted)
  {
    var d := if inDm then t else TryDelete(t, canDelete, false);
    if d.stopped then d else d.(effects := d.effects + [WarningSent(v)])
  }

  /** Some attachment's hash matched a listed one. */
  predicate HashHit(list: seq<ImageScores>) {
    exists i :: 0 <= i < |list| && list[i].csamHash == Some(true)
  }

  /** `any(scores["CSAM_HASH"] for scores in scores_list)` as written: the entries are read in
      order until one matches, and a non-image entry, which has no such key, raises KeyError. */
  function HashScan(list: seq<ImageScores>): (r: Result<bool, string>)
    ensures r.Ok? ==> r.value == HashHit(list)
    ensures r.Err? ==> r.error == "KeyError" && exists i :: 0 <= i < |list| && list[i].csamHash.None?
    ensures (forall i :: 0 <= i < |list| ==> list[i].csamHash.Some?) ==> r.Ok?
  {
    if list == [] then Ok(false)
    else if list[0].csamHash.None? then Err("KeyError")
    else if list[0].csamHash.value then Ok(true)
    else
      var rest := HashScan(list[1..]);
      assert forall i :: 0 <= i < |list| - 1 ==> list[1..][i] == list[i + 1];
      assert HashHit(list[1..]) ==> HashHit(list) by {
        if HashHit(list[1..]) {
          var i :| 0 <= i < |list| - 1 && list[1..][i].csamHash == Some(true);
          assert list[i + 1].csamHash == Some(true);
        }
      }
      rest
  }

  predicate IsCandidate(a: ImageScores) {
    a.csam > 0.73 || a.csamHash == Some(true)
  }

  /** The indices of the CSAM candidates, in order: a model score above 0.73 or a hash match. */
  function Candidates(list: seq<ImageScores>): (r: seq<nat>)
    ensures forall k: nat :: k in r <==> k < |list| && IsCandidate(list[k])
    ensures forall k :: 0 <= k < |r| ==> r[k] < |list|
    ensures forall a, b :: 0 <= a < b < |r| ==> r[a] < r[b]
  {
    if list == [] then []
    else
      var n := |list| - 1;
      var prev := Candidates(list[..n]);
      assert forall k :: 0 <= k < n ==> list[..n][k] == list[k];
      if IsCandidate(list[n]) then prev + [n] else prev
  }

  /** A hash match is always a candidate. */
  lemma HitIsCandidate(list: seq<ImageScores>)
    ensures HashHit(list) ==> Candidates(list) != []
  {
    if HashHit(list) {
      var i :| 0 <= i < |list| && list[i].csamHash == Some(true);
      assert i in Candidates(list);
    }
  }

  /** The candidate selection as written: each entry's `CSAM_HASH` is read whenever its score
      does not pass, so one such non-image entry raises KeyError. */
  function CandidatesAsWritten(list: seq<ImageScores>): (r: Result<seq<nat>, string>)
    ensures r.Err? <==> exists i :: 0 <= i < |list| && CsamCandidate(list[i]).Err?
    ensures r.Ok? ==> r.value == Candidates(list)
  {
    if exists i :: 0 <= i < |list| && CsamCandidate(list[i]).Err? then Err("KeyError")
    else Ok(Candidates(list))
  }

  /** What `mark_as_csam` files for candidate `i`: NCMEC for a hash match, otherwise a review
      report for the moderators. */
  function Marked(list: seq<ImageScores>, i: nat): ChannelEffect
    requires i < |list|
  {
    if list[i].csamHash == Some(true) then NcmecFiled(i) else CsamReportPosted(i)
  }

  /** What `mark_as_csam` files for the candidates, in their order. */
  function MarksOf(list: seq<ImageScores>, cands: seq<nat>): seq<ChannelEffect>
    requires forall k :: 0 <= k < |cands| ==> cands[k] < |list|
  {
    if cands == [] then [] else [Marked(list, cands[0])] + MarksOf(list, cands[1..])
  }

  /** Some candidate matched a listed hash. */
  predicate HitAmong(list: seq<ImageScores>, cands: seq<nat>) {
    exists k :: 0 <= k < |cands| && cands[k] < |list| && list[cands[k]].csamHash == Some(true)
  }

  /** The filings among `es`, in order: NCMEC reports and moderators' review reports. */
  function Reports(es: seq<ChannelEffect>): seq<ChannelEffect> {
    if es == [] then []
    else Reports(es[..|es| - 1]) + (if es[|es| - 1].NcmecFiled? || es[|es| - 1].CsamReportPosted? then [es[|es| - 1]] else [])
  }

  lemma {:induction false} ReportsAppend(a: seq<ChannelEffect>, b: seq<ChannelEffect>)
    ensures Reports(a + b) == Reports(a) + Reports(b)
    decreases |b|
  {
    if b == [] {
      assert a + b == a;
    } else {
      var n := |b| - 1;
      assert (a + b)[..|a + b| - 1] == a + b[..n];
      assert b[..n] + [b[n]] == b;
      ReportsAppend(a, b[..n]);
    }
  }

  lemma HitAmongCons(list: seq<ImageScores>, cands: seq<nat>)
    requires cands != [] && cands[0] < |list|
    ensures HitAmong(list, cands) <==> list[cands[0]].csamHash == Some(true) || HitAmong(list, cands[1..])
  {
    var tail := cands[1..];
    if HitAmong(list, cands) {
      var k :| 0 <= k < |cands| && cands[k] < |list| && list[cands[k]].csamHash == Some(true);
      if k > 0 {
        assert tail[k - 1] == cands[k];
      }
    }
    if HitAmong(list, tail) {
      var k :| 0 <= k < |tail| && tail[k] < |list| && list[tail[k]].csamHash == Some(true);
      assert cands[k + 1] == tail[k];
    }
  }

  /** What was added from `a` to `c` is what was added from `a` to `b` and then from `b` to `c`. */
  lemma AddedJoin(a: seq<ChannelEffect>, b: seq<ChannelEffect>, c: seq<ChannelEffect>)
    requires |a| <= |b| <= |c| && b[..|a|] == a && c[..|b|] == b
    ensures c[|a|..] == b[|a|..] + c[|b|..]
    ensures Reports(c[|a|..]) == Reports(b[|a|..]) + Reports(c[|b|..])
    ensures DummyWarningSent in c[|a|..] <==> DummyWarningSent in b[|a|..] || DummyWarningSent in c[|b|..]
  {
    assert c == b + c[|b|..];
    assert b == a + b[|a|..];
    ReportsAppend(b[|a|..], c[|b|..]);
  }

  /** None of these effects is a filing. */
  lemma NoReports(es: seq<ChannelEffect>)
    requires forall k :: 0 <= k < |es| ==> !es[k].NcmecFiled? && !es[k].CsamReportPosted?
    ensures Reports(es) == []
    decreases |es|
  {
    if es != [] {
      NoReports(es[..|es| - 1]);
    }
  }

  /** One pass of the loop of `mark_as_csam`: a hash match is filed with NCMEC and, unless the
      handler thinks the message is gone, the message is deleted (Forbidden swallowed, and the
      message counted as gone either way); any other candidate gets a moderators' review report. */
  function MarkOne(t: Tally, list: seq<ImageScores>, i: nat, gone: bool, canDelete: bool): (r: (Tally, bool))
    requires !t.stopped && i < |list|
    ensures |r.0.effects| > |t.effects| && r.0.effects[..|t.effects|] == t.effects
    ensures r.0.effects[|t.effects|] == Marked(list, i)
    ensures forall k :: |t.effects| < k < |r.0.effects| ==> r.0.effects[k] in {MessageDeleted, Escaped("NotFound")}
    ensures r.0.stopped <==> list[i].csamHash == Some(true) && !gone && t.deleted
    ensures r.1 <==> gone || list[i].csamHash == Some(true)
    ensures list[i].csamHash != Some(true) ==> r.0.deleted == t.deleted
    ensures gone ==> r.1 && r.0.deleted == t.deleted
    ensures canDelete && (t.deleted ==> gone) ==> (r.0.deleted ==> r.1)
  {
    var t1 := t.(effects := t.effects + [Marked(list, i)]);
    if list[i].csamHash == Some(true) && !gone then (TryDelete(t1, canDelete, true), true)
    else (t1, gone)
  }

  /** The effects of one pass of the loop: its filing, then at most a deletion. */
  lemma MarkOneAdded(t: Tally, list: seq<ImageScores>, i: nat, gone: bool, canDelete: bool)
    requires !t.stopped && i < |list|
    ensures var r := MarkOne(t, list, i, gone, canDelete);
      Reports(r.0.effects[|t.effects|..]) == [Marked(list, i)] && DummyWarningSent !in r.0.effects[|t.effects|..]
  {
    var r := MarkOne(t, list, i, gone, canDelete);
    var added := r.0.effects[|t.effects|..];
    assert added == [added[0]] + added[1..];
    NoReports(added[1..]);
    ReportsAppend([added[0]], added[1..]);
    assert [added[0]][..0] == [];
  }

  /** The loop of `mark_as_csam` over the candidates, until an exception ends it: unless one
      does, every candidate is filed in order, NCMEC for a hash match and a review report
      otherwise. The message is thought gone afterwards exactly when it was before or a
      candidate matched a listed hash, and only a hash match can raise. */
  function MarkEach(t: Tally, list: seq<ImageScores>, cands: seq<nat>, gone: bool, canDelete: bool): (r: (Tally, bool))
    requires !t.stopped
    requires forall k :: 0 <= k < |cands| ==> cands[k] < |list|
    ensures |t.effects| <= |r.0.effects| && r.0.effects[..|t.effects|] == t.effects
    ensures gone ==> r.1 && !r.0.stopped && r.0.deleted == t.deleted
    ensures r.1 <==> gone || HitAmong(list, cands)
    ensures !HitAmong(list, cands) ==> !r.0.stopped && r.0.deleted == t.deleted
    ensures canDelete && (t.deleted ==> gone) ==> !r.0.stopped && (r.0.deleted ==> r.1)
    ensures DummyWarningSent !in r.0.effects[|t.effects|..]
    ensures Reports(r.0.effects[|t.effects|..]) <= MarksOf(list, cands)
    ensures !r.0.stopped ==> Reports(r.0.effects[|t.effects|..]) == MarksOf(list, cands)
    decreases |cands|
  {
    if cands == [] then
      assert t.effects[|t.effects|..] == [];
      (t, gone)
    else
      var (t1, gone1) := MarkOne(t, list, cands[0], gone, canDelete);
      if t1.stopped then
        HitAmongCons(list, cands);
        MarkOneAdded(t, list, cands[0], gone, canDelete);
        assert MarksOf(list, cands) == [Marked(list, cands[0])] + MarksOf(list, cands[1..]);
        (t1, gone1)
      else
        var r := MarkEach(t1, list, cands[1..], gone1, canDelete);
        MarkEachStepFlags(t, list, cands, gone, canDelete, t1, gone1, r.0, r.1);
        MarkOneAdded(t, list, cands[0], gone, canDelete);
        MarkEachStepAdded(t.effects, t1.effects, r.0.effects, Marked(list, cands[0]), MarksOf(list, cands[1..]),
                          MarksOf(list, cands), r.0.stopped);
        r
  }

  /** The step of `MarkEach` for whether the message is gone and whether the loop ran through:
      the first candidate's pass, then the rest of the loop, which did what `MarkEach` promises. */
  lemma MarkEachStepFlags(t: Tally, list: seq<ImageScores>, cands: seq<nat>, gone: bool, canDelete: bool,
                          t1: Tally, gone1: bool, r: Tally, r1: bool)
    requires !t.stopped && cands != []
    requires forall k :: 0 <= k < |cands| ==> cands[k] < |list|
    requires (t1, gone1) == MarkOne(t, list, cands[0], gone, canDelete) && !t1.stopped
    requires gone1 ==> r1 && !r.stopped && r.deleted == t1.deleted
    requires r1 <==> gone1 || HitAmong(list, cands[1..])
    requires !HitAmong(list, cands[1..]) ==> !r.stopped && r.deleted == t1.deleted
    requires canDelete && (t1.deleted ==> gone1) ==> !r.stopped && (r.deleted ==> r1)
    ensures gone ==> r1 && !r.stopped && r.deleted == t.deleted
    ensures r1 <==> gone || HitAmong(list, cands)
    ensures !HitAmong(list, cands) ==> !r.stopped && r.deleted == t.deleted
    ensures canDelete && (t.deleted ==> gone) ==> !r.stopped && (r.deleted ==> r1)
  {
    HitAmongCons(list, cands);
  }

  /** The step of `MarkEach` for what was added: the first candidate's filing, then the rest. */
  lemma MarkEachStepAdded(a: seq<ChannelEffect>, b: seq<ChannelEffect>, c: seq<ChannelEffect>,
                          m: ChannelEffect, rest: seq<ChannelEffect>, all: seq<ChannelEffect>, stopped: bool)
    requires all == [m] + rest
    requires |a| <= |b| && b[..|a|] == a && Reports(b[|a|..]) == [m] && DummyWarningSent !in b[|a|..]
    requires |b| <= |c| && c[..|b|] == b && Reports(c[|b|..]) <= rest && DummyWarningSent !in c[|b|..]
    requires !stopped ==> Reports(c[|b|..]) == rest
    ensures |a| <= |c| && c[..|a|] == a && DummyWarningSent !in c[|a|..]
    ensures Reports(c[|a|..]) <= all
    ensures !stopped ==> Reports(c[|a|..]) == all
  {
    AddedJoin(a, b, c);
    PrefixCons(m, Reports(c[|b|..]), rest);
  }

  lemma PrefixCons<T>(x: T, a: seq<T>, b: seq<T>)
    requires a <= b
    ensures [x] + a <= [x] + b
  {
    assert forall k :: 0 <= k < |a| ==> ([x] + a)[k + 1] == a[k] == b[k] == ([x] + b)[k + 1];
  }

  /** The end of `mark_as_csam` when a dummy warning is due: outside a direct message the
      message is deleted, uncaught, and then the dummy warning dialogue opens. */
  function DummyWarning(t: Tally, inDm: bool, canDelete: bool): (r: Tally)
    requires !t.stopped
    ensures |t.effects| < |r.effects| && r.effects[..|t.effects|] == t.effects
    ensures Reports(r.effects[|t.effects|..]) == []
    ensures r.stopped <==> !inDm && (t.deleted || !canDelete)
    ensures DummyWarningSent in r.effects[|t.effects|..] <==> !r.stopped
  {
    var d := if inDm then t else TryDelete(t, canDelete, false);
    var r := if d.stopped then d else d.(effects := d.effects + [DummyWarningSent]);
    NoReports(r.effects[|t.effects|..]);
    r
  }

  /** `mark_as_csam`. As written the handler starts by taking the message as gone exactly when no
      warning is to be shown; corrected, it also takes it as gone when it really is. Every
      candidate is filed unless an exception ends the handler, and a dummy warning follows
      exactly when one is to be shown, the handler does not take the message as gone, no
      candidate matched a listed hash, and the message could be deleted or sits in a direct
      message. Corrected and with the permission to delete, nothing raises. */
  function MarkAsCsam(t: Tally, list: seq<ImageScores>, cands: seq<nat>, showWarning: bool,
                      inDm: bool, canDelete: bool, v: BotVersion): (r: Tally)
    requires !t.stopped
    requires forall k :: 0 <= k < |cands| ==> cands[k] < |list|
    ensures |t.effects| <= |r.effects| && r.effects[..|t.effects|] == t.effects
    ensures !showWarning ==> !r.stopped && r.deleted == t.deleted
    ensures !r.stopped ==> Reports(r.effects[|t.effects|..]) == MarksOf(list, cands)
    ensures DummyWarningSent in r.effects[|t.effects|..] <==>
              showWarning && !(v.markFixed && t.deleted) && !HitAmong(list, cands) && (inDm || (canDelete && !t.deleted))
    ensures canDelete && v.markFixed ==> !r.stopped
  {
    var gone := if v.markFixed then !showWarning || t.deleted else !showWarning;
    var (t1, gone1) := MarkEach(t, list, cands, gone, canDelete);
    var r := if t1.stopped || !showWarning || gone1 then t1 else DummyWarning(t1, inDm, canDelete);
    MarkAsCsamEnd(t, list, cands, showWarning, inDm, canDelete, v, gone, t1, gone1, r);
    r
  }

  /** The end of `MarkAsCsam`, from what the loop and the dummy warning promise. */
  lemma MarkAsCsamEnd(t: Tally, list: seq<ImageScores>, cands: seq<nat>, showWarning: bool,
                      inDm: bool, canDelete: bool, v: BotVersion, gone: bool, t1: Tally, gone1: bool, r: Tally)
    requires !t.stopped && forall k :: 0 <= k < |cands| ==> cands[k] < |list|
    requires gone == if v.markFixed then !showWarning || t.deleted else !showWarning
    requires (t1, gone1) == MarkEach(t, list, cands, gone, canDelete)
    requires r == if t1.stopped || !showWarning || gone1 then t1 else DummyWarning(t1, inDm, canDelete)
    ensures |t.effects| <= |r.effects| && r.effects[..|t.effects|] == t.effects
    ensures !showWarning ==> !r.stopped && r.deleted == t.deleted
    ensures !r.stopped ==> Reports(r.effects[|t.effects|..]) == MarksOf(list, cands)
    ensures DummyWarningSent in r.effects[|t.effects|..] <==>
              showWarning && !(v.markFixed && t.deleted) && !HitAmong(list, cands) && (inDm || (canDelete && !t.deleted))
    ensures canDelete && v.markFixed ==> !r.stopped
  {
    var d := if t1.stopped || !showWarning || gone1 then t1 else DummyWarning(t1, inDm, canDelete);
    var dummy := !(t1.stopped || !showWarning || gone1);
    MarkAsCsamEndEffects(t, MarksOf(list, cands), t1, d, dummy);
    MarkAsCsamEndFlags(t, list, cands, showWarning, inDm, canDelete, v, gone, t1, gone1, d, dummy);
  }

  lemma MarkAsCsamEndEffects(t: Tally, marks: seq<ChannelEffect>, t1: Tally, r: Tally, dummy: bool)
    requires |t.effects| <= |t1.effects| && t1.effects[..|t.effects|] == t.effects
    requires DummyWarningSent !in t1.effects[|t.effects|..]
    requires !t1.stopped ==> Reports(t1.effects[|t.effects|..]) == marks
    requires !dummy ==> r == t1
    requires dummy ==> !t1.stopped && |t1.effects| < |r.effects| && r.effects[..|t1.effects|] == t1.effects
    requires dummy ==> Reports(r.effects[|t1.effects|..]) == [] && (DummyWarningSent in r.effects[|t1.effects|..] <==> !r.stopped)
    ensures |t.effects| <= |r.effects| && r.effects[..|t.effects|] == t.effects
    ensures !r.stopped ==> Reports(r.effects[|t.effects|..]) == marks
    ensures DummyWarningSent in r.effects[|t.effects|..] <==> dummy && !r.stopped
  {
    if dummy {
      AddedJoin(t.effects, t1.effects, r.effects);
    }
  }

  lemma MarkAsCsamEndFlags(t: Tally, list: seq<ImageScores>, cands: seq<nat>, showWarning: bool,
                           inDm: bool, canDelete: bool, v: BotVersion, gone: bool, t1: Tally, gone1: bool,
                           r: Tally, dummy: bool)
    requires gone == if v.markFixed then !showWarning || t.deleted else !showWarning
    requires gone ==> gone1 && !t1.stopped && t1.deleted == t.deleted
    requires gone1 <==> gone || HitAmong(list, cands)
    requires !HitAmong(list, cands) ==> !t1.stopped && t1.deleted == t.deleted
    requires canDelete && (t.deleted ==> gone) ==> !t1.stopped && (t1.deleted ==> gone1)
    requires dummy <==> !(t1.stopped || !showWarning || gone1)
    requires !dummy ==> r == t1
    requires dummy ==> (r.stopped <==> !inDm && (t1.deleted || !canDelete))
    ensures !showWarning ==> !r.stopped && r.deleted == t.deleted
    ensures dummy && !r.stopped <==>
              showWarning && !(v.markFixed && t.deleted) && !HitAmong(list, cands) && (inDm || (canDelete && !t.deleted))
    ensures canDelete && v.markFixed ==> !r.stopped
  {
  }

  /** What the handler does first with a message's images: a hash match deletes it (Forbidden
      swallowed); otherwise a flagged image opens a warning. */
  function FirstAction(hit: bool, verdict: Option<Verdict>, inDm: bool, canDelete: bool): (r: Tally)
    ensures hit ==> !r.stopped && (r.deleted <==> canDelete) && r.effects == (if canDelete then [MessageDeleted] else [])
    ensures !hit && verdict.Some? ==>
              (r.stopped <==> !inDm && !canDelete) && |r.effects| > 0
              && (!r.stopped ==> r.effects[|r.effects| - 1] == WarningSent(verdict.value))
    ensures !hit && verdict.None? ==> r == START
  {
    if hit then TryDelete(START, canDelete, true)
    else if verdict.Some? then Confirm(START, verdict.value, inDm, canDelete)
    else START
  }

  /** The CSAM candidates are marked when there are any; otherwise the handler is finished only
      when a warning was shown. A hash match always makes a candidate. */
  function CsamStage(t: Tally, list: seq<ImageScores>, showWarning: bool, inDm: bool, canDelete: bool,
                     v: BotVersion): (r: (Tally, bool))
    requires !t.stopped
    ensures HashHit(list) ==> r.1
    ensures !r.1 ==> r.0 == t
  {
    HitIsCandidate(list);
    var cands := if v.hashKeyFixed then Ok(Candidates(list)) else CandidatesAsWritten(list);
    if cands.Err? then (Tally(t.effects + [Escaped(cands.error)], t.deleted, true), true)
    else if cands.value != [] then (MarkAsCsam(t, list, cands.value, showWarning, inDm, canDelete, v), true)
    else
      (t, !showWarning)
  }

  /** The attachment half of `handle_channel_message`, for a message with attachments. The
      second component says whether the handler is finished; when it is not, nothing has
      happened yet and the text is screened next. */
  function ImageStage(list: seq<ImageScores>, inDm: bool, canDelete: bool, v: BotVersion): (r: (Tally, bool))
    ensures !r.1 ==> r.0 == START
  {
    var hit := if v.hashKeyFixed then Ok(HashHit(list)) else HashScan(list);
    if hit.Err? then (Tally([Escaped(hit.error)], false, true), true)
    else
      var verdict := if hit.value then None else ImageVerdict(Peak(Gores(list)), Peak(Adults(list)), Peak(Racies(list)));
      var t := FirstAction(hit.value, verdict, inDm, canDelete);
      if t.stopped then (t, true) else CsamStage(t, list, verdict.None?, inDm, canDelete, v)
  }

  /** The 🆘 added at the end to any message with attachments that has none yet. */
  function Tail(t: Tally, hasAttachments: bool): Tally {
    if hasAttachments then t.(effects := t.effects + [SosReacted]) else t
  }

  /** The text half: a flagged text opens a warning; a text in the uncertain band gets 🆘. */
  function TextStage(t: Tally, content: string, hasAttachments: bool, s: TextScores,
                     inDm: bool, canDelete: bool): (r: Tally)
    requires !t.stopped
    ensures |t.effects| <= |r.effects| && r.effects[..|t.effects|] == t.effects
    ensures !r.stopped && |r.effects| > |t.effects| ==>
      r.effects[|r.effects| - 1] == (if Strip(content) != [] && TextVerdict(s).Some? then WarningSent(TextVerdict(s).value) else SosReacted)
    ensures r.effects == t.effects + [SosReacted] <==>
      (Strip(content) == [] || TextVerdict(s).None?) && (hasAttachments || (Strip(content) != [] && SosBand(s)))
  {
    if Strip(content) != [] then
      match TextVerdict(s)
      case Some(v) => Confirm(t, v, inDm, canDelete)
      case None => if SosBand(s) then t.(effects := t.effects + [SosReacted]) else Tail(t, hasAttachments)
    else Tail(t, hasAttachments)
  }

  /** `handle_channel_message`, given the image reviewer's entries for the attachments, the text
      classifier's scores, and whether the bot may delete the message. */
  function ChannelPlan(c: Incoming, fromSelf: bool, list: seq<ImageScores>, s: TextScores,
                       canDelete: bool, v: BotVersion): (r: seq<ChannelEffect>)
    requires |list| == |c.msg.attachments|
    ensures !Watched(c) ==> r == []
    ensures Watched(c) && fromSelf ==> r == if c.msg.attachments != [] then [SosReacted] else []
    ensures Watched(c) && !fromSelf && c.msg.attachments == [] && Strip(c.msg.content) == [] ==> r == []
  {
    var hasAttachments := c.msg.attachments != [];
    if !Watched(c) then []
    else if fromSelf then Tail(START, hasAttachments).effects
    else
      var (t, finished) := if hasAttachments then ImageStage(list, c.inDm, canDelete, v) else (START, false);
      if finished then t.effects else TextStage(START, c.msg.content, hasAttachments, s, c.inDm, canDelete).effects
  }

  // ---------------------------------------------------------------------------------------------
  // Counting what the handler did

  function Deletions(es: seq<ChannelEffect>): nat {
    if es == [] then 0 else Deletions(es[..|es| - 1]) + (if es[|es| - 1].MessageDeleted? then 1 else 0)
  }

  function Warnings(es: seq<ChannelEffect>): nat {
    if es == [] then 0
    else Warnings(es[..|es| - 1]) + (if es[|es| - 1].WarningSent? || es[|es| - 1].DummyWarningSent? then 1 else 0)
  }

  predicate Failed(es: seq<ChannelEffect>) {
    exists k :: 0 <= k < |es| && es[k].Escaped?
  }

  /** The counts grow by the one effect added. */
  lemma CountsSnoc(es: seq<ChannelEffect>, e: ChannelEffect)
    ensures Deletions(es + [e]) == Deletions(es) + (if e.MessageDeleted? then 1 else 0)
    ensures Warnings(es + [e]) == Warnings(es) + (if e.WarningSent? || e.DummyWarningSent? then 1 else 0)
    ensures Failed(es + [e]) <==> Failed(es) || e.Escaped?
  {
    assert (es + [e])[..|es|] == es;
    if Failed(es + [e]) && !e.Escaped? {
      var k :| 0 <= k < |es + [e]| && (es + [e])[k].Escaped?;
      assert es[k].Escaped?;
    }
    if Failed(es) {
      var k :| 0 <= k < |es| && es[k].Escaped?;
      assert (es + [e])[k].Escaped?;
    }
  }

  /** The message is deleted at most once, and only when the tally says so. */
  predicate Consistent(t: Tally) {
    Deletions(t.effects) == (if t.deleted then 1 else 0)
  }

  lemma TryDeleteCounts(t: Tally, canDelete: bool, catchForbidden: bool)
    requires !t.stopped
    ensures var r := TryDelete(t, canDelete, catchForbidden);
      (Consistent(t) ==> Consistent(r)) && Warnings(r.effects) == Warnings(t.effects)
      && (canDelete && !t.deleted && !Failed(t.effects) ==> !r.stopped && r.deleted && !Failed(r.effects))
  {
    if t.deleted {
      CountsSnoc(t.effects, Escaped("NotFound"));
    } else if canDelete {
      CountsSnoc(t.effects, MessageDeleted);
    } else if !catchForbidden {
      CountsSnoc(t.effects, Escaped("Forbidden"));
    }
  }

  lemma ConfirmCounts(t: Tally, v: Verdict, inDm: bool, canDelete: bool)
    requires !t.stopped
    ensures var r := Confirm(t, v, inDm, canDelete);
      (Consistent(t) ==> Consistent(r)) && Warnings(r.effects) <= Warnings(t.effects) + 1
      && (canDelete && !t.deleted && !Failed(t.effects) ==> !Failed(r.effects))
  {
    var d := if inDm then t else TryDelete(t, canDelete, false);
    if !inDm {
      TryDeleteCounts(t, canDelete, false);
    }
    if !d.stopped {
      CountsSnoc(d.effects, WarningSent(v));
    }
  }

  lemma MarkOneCounts(t: Tally, list: seq<ImageScores>, i: nat, gone: bool, canDelete: bool)
    requires !t.stopped && i < |list|
    ensures var r := MarkOne(t, list, i, gone, canDelete);
      (Consistent(t) ==> Consistent(r.0)) && Warnings(r.0.effects) == Warnings(t.effects) && (gone ==> r.1)
      && (canDelete && (t.deleted ==> gone) && !Failed(t.effects) ==>
            !r.0.stopped && (r.0.deleted ==> r.1) && !Failed(r.0.effects))
  {
    if list[i].csamHash == Some(true) {
      var t1 := t.(effects := t.effects + [NcmecFiled(i)]);
      CountsSnoc(t.effects, NcmecFiled(i));
      if !gone {
        TryDeleteCounts(t1, canDelete, true);
      }
    } else {
      CountsSnoc(t.effects, CsamReportPosted(i));
    }
  }

  lemma {:induction false} MarkEachCounts(t: Tally, list: seq<ImageScores>, cands: seq<nat>, gone: bool, canDelete: bool)
    requires !t.stopped
    requires forall k :: 0 <= k < |cands| ==> cands[k] < |list|
    ensures var r := MarkEach(t, list, cands, gone, canDelete);
      (Consistent(t) ==> Consistent(r.0)) && Warnings(r.0.effects) == Warnings(t.effects) && (gone ==> r.1)
      && (canDelete && (t.deleted ==> gone) && !Failed(t.effects) ==>
            !r.0.stopped && (r.0.deleted ==> r.1) && !Failed(r.0.effects))
    decreases |cands|
  {
    if cands != [] {
      MarkOneCounts(t, list, cands[0], gone, canDelete);
      var (t1, gone1) := MarkOne(t, list, cands[0], gone, canDelete);
      if !t1.stopped {
        MarkEachCounts(t1, list, cands[1..], gone1, canDelete);
      }
    }
  }

  lemma MarkAsCsamCounts(t: Tally, list: seq<ImageScores>, cands: seq<nat>, showWarning: bool,
                         inDm: bool, canDelete: bool, v: BotVersion)
    requires !t.stopped
    requires forall k :: 0 <= k < |cands| ==> cands[k] < |list|
    ensures var r := MarkAsCsam(t, list, cands, showWarning, inDm, canDelete, v);
      (Consistent(t) ==> Consistent(r)) && Warnings(r.effects) <= Warnings(t.effects) + (if showWarning then 1 else 0)
      && (canDelete && v.markFixed && !Failed(t.effects) ==> !Failed(r.effects))
  {
    var gone := if v.markFixed then !showWarning || t.deleted else !showWarning;
    MarkEachCounts(t, list, cands, gone, canDelete);
    var (t1, gone1) := MarkEach(t, list, cands, gone, canDelete);
    if !(t1.stopped || !showWarning || gone1) {
      var d := if inDm then t1 else TryDelete(t1, canDelete, false);
      if !inDm {
        TryDeleteCounts(t1, canDelete, false);
      }
      if !d.stopped {
        CountsSnoc(d.effects, DummyWarningSent);
      }
    }
  }

  lemma FirstActionCounts(hit: bool, verdict: Option<Verdict>, inDm: bool, canDelete: bool)
    ensures var t := FirstAction(hit, verdict, inDm, canDelete);
      Consistent(t) && Warnings(t.effects) <= (if !hit && verdict.Some? then 1 else 0)
      && (canDelete ==> !t.stopped && !Failed(t.effects))
  {
    if hit {
      TryDeleteCounts(START, canDelete, true);
    } else if verdict.Some? {
      ConfirmCounts(START, verdict.value, inDm, canDelete);
      TryDeleteCounts(START, canDelete, false);
    }
  }

  lemma CsamStageCounts(t: Tally, list: seq<ImageScores>, showWarning: bool, inDm: bool, canDelete: bool, v: BotVersion)
    requires !t.stopped && Consistent(t)
    ensures var r := CsamStage(t, list, showWarning, inDm, canDelete, v);
      Consistent(r.0) && Warnings(r.0.effects) <= Warnings(t.effects) + (if showWarning then 1 else 0)
      && (canDelete && v == BOT_FIXED && !Failed(t.effects) ==> !Failed(r.0.effects))
  {
    var cands := if v.hashKeyFixed then Ok(Candidates(list)) else CandidatesAsWritten(list);
    if cands.Err? {
      CountsSnoc(t.effects, Escaped(cands.error));
    } else if cands.value != [] {
      MarkAsCsamCounts(t, list, cands.value, showWarning, inDm, canDelete, v);
    }
  }

  lemma ImageStageCounts(list: seq<ImageScores>, inDm: bool, canDelete: bool, v: BotVersion)
    ensures var r := ImageStage(list, inDm, canDelete, v);
      Consistent(r.0) && Warnings(r.0.effects) <= 1
      && (canDelete && v == BOT_FIXED ==> !Failed(r.0.effects))
  {
    var hit := if v.hashKeyFixed then Ok(HashHit(list)) else HashScan(list);
    if hit.Err? {
      CountsSnoc([], Escaped(hit.error));
      assert ImageStage(list, inDm, canDelete, v).0.effects == [] + [Escaped(hit.error)];
    } else {
      var verdict := if hit.value then None else ImageVerdict(Peak(Gores(list)), Peak(Adults(list)), Peak(Racies(list)));
      var t := FirstAction(hit.value, verdict, inDm, canDelete);
      assert ImageStage(list, inDm, canDelete, v) ==
        if t.stopped then (t, true) else CsamStage(t, list, verdict.None?, inDm, canDelete, v);
      AfterFirstActionCounts(list, hit.value, verdict, inDm, canDelete, v);
    }
  }

  lemma AfterFirstActionCounts(list: seq<ImageScores>, hit: bool, verdict: Option<Verdict>, inDm: bool,
                               canDelete: bool, v: BotVersion)
    requires hit ==> verdict.None?
    ensures var t := FirstAction(hit, verdict, inDm, canDelete);
      var r := if t.stopped then (t, true) else CsamStage(t, list, verdict.None?, inDm, canDelete, v);
      Consistent(r.0) && Warnings(r.0.effects) <= 1
      && (canDelete && v == BOT_FIXED ==> !Failed(r.0.effects))
  {
    var t := FirstAction(hit, verdict, inDm, canDelete);
    FirstActionCounts(hit, verdict, inDm, canDelete);
    if !t.stopped {
      CsamStageCounts(t, list, verdict.None?, inDm, canDelete, v);
    }
  }

  lemma TextStageCounts(content: string, hasAttachments: bool, s: TextScores, inDm: bool, canDelete: bool)
    ensures var r := TextStage(START, content, hasAttachments, s, inDm, canDelete);
      Consistent(r) && Warnings(r.effects) <= 1 && (canDelete ==> !Failed(r.effects))
  {
    if Strip(content) != [] && TextVerdict(s).Some? {
      ConfirmCounts(START, TextVerdict(s).value, inDm, canDelete);
    } else if Strip(content) != [] && SosBand(s) {
      CountsSnoc([], SosReacted);
    } else if hasAttachments {
      CountsSnoc([], SosReacted);
    }
  }

  /** Whatever the message, the handler deletes it at most once and opens at most one warning
      dialogue; corrected and with the permission to delete, no exception escapes it. */
  lemma ChannelPlanIsOrderly(c: Incoming, fromSelf: bool, list: seq<ImageScores>, s: TextScores,
                             canDelete: bool, v: BotVersion)
    requires |list| == |c.msg.attachments|
    ensures Deletions(ChannelPlan(c, fromSelf, list, s, canDelete, v)) <= 1
    ensures Warnings(ChannelPlan(c, fromSelf, list, s, canDelete, v)) <= 1
    ensures canDelete && v == BOT_FIXED ==> !Failed(ChannelPlan(c, fromSelf, list, s, canDelete, v))
  {
    var hasAttachments := c.msg.attachments != [];
    if Watched(c) {
      if fromSelf {
        if hasAttachments {
          CountsSnoc([], SosReacted);
        }
      } else {
        var (t, finished) := if hasAttachments then ImageStage(list, c.inDm, canDelete, v) else (START, false);
        if hasAttachments {
          ImageStageCounts(list, c.inDm, canDelete, v);
        }
        if !finished {
          TextStageCounts(c.msg.content, hasAttachments, s, c.inDm, canDelete);
        }
      }
    }
  }

  /** The filings are the effects' NCMEC reports and review reports, so each is an effect. */
  lemma ReportsAreEffects(es: seq<ChannelEffect>)
    ensures forall e :: e in Reports(es) ==> e in es
    decreases |es|
  {
    if es != [] {
      ReportsAreEffects(es[..|es| - 1]);
    }
  }

  /** The k-th filing of the candidates is the k-th candidate's. */
  lemma MarksOfAt(list: seq<ImageScores>, cands: seq<nat>)
    requires forall k :: 0 <= k < |cands| ==> cands[k] < |list|
    ensures |MarksOf(list, cands)| == |cands|
    ensures forall k :: 0 <= k < |cands| ==> MarksOf(list, cands)[k] == Marked(list, cands[k])
    decreases |cands|
  {
    if cands != [] {
      MarksOfAt(list, cands[1..]);
    }
  }

  /** An effect that is not a filing leaves the filings as they were. */
  lemma ReportsSnoc(es: seq<ChannelEffect>, e: ChannelEffect)
    requires !e.NcmecFiled? && !e.CsamReportPosted?
    ensures Reports(es + [e]) == Reports(es)
  {
    assert (es + [e])[..|es|] == es;
  }

  /** Deleting the message files nothing. */
  lemma TryDeleteFilesNothing(t: Tally, canDelete: bool, catchForbidden: bool)
    requires !t.stopped
    ensures Reports(TryDelete(t, canDelete, catchForbidden).effects) == Reports(t.effects)
  {
    if t.deleted {
      ReportsSnoc(t.effects, Escaped("NotFound"));
    } else if canDelete {
      ReportsSnoc(t.effects, MessageDeleted);
    } else if !catchForbidden {
      ReportsSnoc(t.effects, Escaped("Forbidden"));
    }
  }

  /** Opening a warning files nothing. */
  lemma ConfirmFilesNothing(t: Tally, v: Verdict, inDm: bool, canDelete: bool)
    requires !t.stopped
    ensures Reports(Confirm(t, v, inDm, canDelete).effects) == Reports(t.effects)
  {
    var d := if inDm then t else TryDelete(t, canDelete, false);
    if !inDm {
      TryDeleteFilesNothing(t, canDelete, false);
    }
    if !d.stopped {
      ReportsSnoc(d.effects, WarningSent(v));
    }
  }

  /** Screening the text files nothing. */
  lemma TextStageFilesNothing(t: Tally, content: string, hasAttachments: bool, s: TextScores, inDm: bool, canDelete: bool)
    requires !t.stopped
    ensures Reports(TextStage(t, content, hasAttachments, s, inDm, canDelete).effects) == Reports(t.effects)
  {
    if Strip(content) != [] && TextVerdict(s).Some? {
      ConfirmFilesNothing(t, TextVerdict(s).value, inDm, canDelete);
    } else if (Strip(content) != [] && SosBand(s)) || hasAttachments {
      ReportsSnoc(t.effects, SosReacted);
    }
  }

  /** Neither the deletion of a hash match nor the warning about a flagged image files anything. */
  lemma FirstActionFilesNothing(hit: bool, verdict: Option<Verdict>, inDm: bool, canDelete: bool)
    ensures Reports(FirstAction(hit, verdict, inDm, canDelete).effects) == []
  {
    if hit {
      TryDeleteFilesNothing(START, canDelete, true);
    } else if verdict.Some? {
      ConfirmFilesNothing(START, verdict.value, inDm, canDelete);
    }
  }

  /** Corrected and with the permission to delete, marking files every candidate and nothing
      else, and it leaves the text to be screened only when there is no candidate. */
  lemma CsamStageFilesEveryCandidate(t: Tally, list: seq<ImageScores>, showWarning: bool, inDm: bool)
    requires !t.stopped && Reports(t.effects) == []
    ensures Reports(CsamStage(t, list, showWarning, inDm, true, BOT_FIXED).0.effects) == MarksOf(list, Candidates(list))
    ensures !CsamStage(t, list, showWarning, inDm, true, BOT_FIXED).1 ==> Candidates(list) == []
  {
    var cands := Candidates(list);
    if cands != [] {
      var r := MarkAsCsam(t, list, cands, showWarning, inDm, true, BOT_FIXED);
      assert r.effects == t.effects + r.effects[|t.effects|..];
      ReportsAppend(t.effects, r.effects[|t.effects|..]);
    }
  }

  /** The same for the whole attachment half. */
  lemma ImageStageFilesEveryCandidate(list: seq<ImageScores>, inDm: bool)
    ensures Reports(ImageStage(list, inDm, true, BOT_FIXED).0.effects) == MarksOf(list, Candidates(list))
    ensures !ImageStage(list, inDm, true, BOT_FIXED).1 ==> Candidates(list) == []
  {
    var verdict := if HashHit(list) then None else ImageVerdict(Peak(Gores(list)), Peak(Adults(list)), Peak(Racies(list)));
    var t := FirstAction(HashHit(list), verdict, inDm, true);
    FirstActionFilesNothing(HashHit(list), verdict, inDm, true);
    CsamStageFilesEveryCandidate(t, list, verdict.None?, inDm);
  }

  /** Every CSAM candidate is filed, whatever else the handler did with the message: corrected
      and with the permission to delete, screening a message files every candidate among its
      attachments, in order, with NCMEC for a hash match and as a moderators' review report
      otherwise, and files nothing else. */
  lemma ChannelPlanFilesEveryCandidate(c: Incoming, list: seq<ImageScores>, s: TextScores)
    requires |list| == |c.msg.attachments| && Watched(c)
    ensures Reports(ChannelPlan(c, false, list, s, true, BOT_FIXED)) == MarksOf(list, Candidates(list))
    ensures forall i :: 0 <= i < |list| && IsCandidate(list[i]) ==> Marked(list, i) in ChannelPlan(c, false, list, s, true, BOT_FIXED)
  {
    var plan := ChannelPlan(c, false, list, s, true, BOT_FIXED);
    var cands := Candidates(list);
    TextStageFilesNothing(START, c.msg.content, c.msg.attachments != [], s, c.inDm, true);
    if c.msg.attachments != [] {
      ImageStageFilesEveryCandidate(list, c.inDm);
    }
    MarksOfAt(list, cands);
    ReportsAreEffects(plan);
    forall i | 0 <= i < |list| && IsCandidate(list[i])
      ensures Marked(list, i) in plan
    {
      var k :| 0 <= k < |cands| && cands[k] == i;
      assert MarksOf(list, cands)[k] == Marked(list, i);
    }
  }

  /** A message with no attachments is screened by its text alone: with the permission to delete,
      a flagged text is deleted and its author warned, an uncertain one gets 🆘. */
  lemma TextOnlyMessage(c: Incoming, list: seq<ImageScores>, s: TextScores, v: BotVersion)
    requires Watched(c) && !c.inDm && c.msg.attachments == [] && list == []
    ensures ChannelPlan(c, false, list, s, true, v) ==
      if Strip(c.msg.content) == [] then []
      else if Flagged(s) then [MessageDeleted, WarningSent(TextVerdict(s).value)]
      else if SosBand(s) then [SosReacted]
      else []
  {
  }

  /** As written, a message whose first attachment is not an image makes the handler raise
      KeyError before anything else happens; corrected, the same message is screened in full. */
  lemma NonImageFirstRaises(c: Incoming, stored: seq<nat>, readings: seq<Reading>, s: TextScores)
    requires Watched(c) && |readings| == |c.msg.attachments|
    requires c.msg.attachments != [] && !IsImage(c.msg.attachments[0])
    ensures ChannelPlan(c, false, Reviewed(stored, c.msg.attachments, readings).0, s, true, BOT_AS_WRITTEN)
            == [Escaped("KeyError")]
    ensures !Failed(ChannelPlan(c, false, Reviewed(stored, c.msg.attachments, readings).0, s, true, BOT_FIXED))
  {
    var list := Reviewed(stored, c.msg.attachments, readings).0;
    assert list[0] == NON_IMAGE;
    ChannelPlanIsOrderly(c, false, list, s, true, BOT_FIXED);
  }

  /** A message whose one attachment is an image matching a listed hash, with nothing else. */
  const HASH_MATCH := [ImageScores(0.0, 0.0, 0.0, 0.0, Some(true))]
  const SILENT := TextScores(0.0, 0.0, 0.0, 0.0, 0.0, 0.0, 0.0, 0.0)

  lemma HashMatchFacts()
    ensures HashHit(HASH_MATCH) && HashScan(HASH_MATCH) == Ok(true) && Candidates(HASH_MATCH) == [0]
    ensures CandidatesAsWritten(HASH_MATCH) == Ok([0])
    ensures FirstAction(true, None, false, true) == Tally([MessageDeleted], true, false)
  {
    assert HASH_MATCH[0].csamHash == Some(true);
    assert Candidates(HASH_MATCH[..0]) == [];
  }

  /** As written, a hash match in a message the bot may delete is deleted, filed with NCMEC, and
      then deleted again by `mark_as_csam`, which raises NotFound. */
  lemma HashMatchDeletedTwice(c: Incoming)
    requires Watched(c) && !c.inDm && c.msg.attachments == [FlowEngine.Attachment(Some(1))]
    ensures ChannelPlan(c, false, HASH_MATCH, SILENT, true, BOT_AS_WRITTEN)
            == [MessageDeleted, NcmecFiled(0), Escaped("NotFound")]
  {
    HashMatchFacts();
    var t := Tally([MessageDeleted], true, false);
    assert HASH_MATCH[0].csamHash == Some(true);
    assert [MessageDeleted] + [NcmecFiled(0)] == [MessageDeleted, NcmecFiled(0)];
    assert [MessageDeleted, NcmecFiled(0)] + [Escaped("NotFound")] == [MessageDeleted, NcmecFiled(0), Escaped("NotFound")];
    assert MarkOne(t, HASH_MATCH, 0, false, true)
           == (Tally([MessageDeleted, NcmecFiled(0), Escaped("NotFound")], true, true), true);
  }

  /** Corrected, the same message is deleted once and filed with NCMEC. */
  lemma HashMatchDeletedOnce(c: Incoming)
    requires Watched(c) && !c.inDm && c.msg.attachments == [FlowEngine.Attachment(Some(1))]
    ensures ChannelPlan(c, false, HASH_MATCH, SILENT, true, BOT_FIXED) == [MessageDeleted, NcmecFiled(0)]
  {
    HashMatchFacts();
    var t := Tally([MessageDeleted], true, false);
    assert HASH_MATCH[0].csamHash == Some(true);
    assert [MessageDeleted] + [NcmecFiled(0)] == [MessageDeleted, NcmecFiled(0)];
    assert [MessageDeleted, NcmecFiled(0)] + [Escaped("NotFound")] == [MessageDeleted, NcmecFiled(0), Escaped("NotFound")];
    assert MarkOne(t, HASH_MATCH, 0, true, true) == (Tally([MessageDeleted, NcmecFiled(0)], true, false), true);
  }

  /** `max_scores`: the highest gore, adult and racy scores over the attachments, 0 for none. */
  method MaxScores(list: seq<ImageScores>) returns (gore: real, adult: real, racy: real)
    ensures gore == Peak(Gores(list)) && adult == Peak(Adults(list)) && racy == Peak(Racies(list))
  {
    gore, adult, racy := 0.0, 0.0, 0.0;
    var i := 0;
    while i < |list|
      invariant 0 <= i <= |list|
      invariant gore == Peak(Gores(list[..i]))
      invariant adult == Peak(Adults(list[..i]))
      invariant racy == Peak(Racies(list[..i]))
    {
      PeakExtends(Gores(list[..i]), Gores(list[..i + 1]));
      PeakExtends(Adults(list[..i]), Adults(list[..i + 1]));
      PeakExtends(Racies(list[..i]), Racies(list[..i + 1]));
      gore := if list[i].gore > gore then list[i].gore else gore;
      adult := if list[i].adult > adult then list[i].adult else adult;
      racy := if list[i].racy > racy then list[i].racy else racy;
      i := i + 1;
    }
    assert list[..i] == list;
  }

  /** One more score raises the peak to it when it is higher. */
  lemma PeakExtends(xs: seq<real>, ys: seq<real>)
    requires |ys| == |xs| + 1 && forall k :: 0 <= k < |xs| ==> ys[k] == xs[k]
    ensures Peak(ys) == if ys[|xs|] > Peak(xs) then ys[|xs|] else Peak(xs)
  {
    assert ys[..|xs|] == xs;
  }

  // ---------------------------------------------------------------------------------------------
  // The client

  /** `ModBot`: the dialogue table, the image reviewer with its hash list, and the smart-spoiler
      switch. */
  class ModBot {
    const botId: UserId
    const table: Table
    const reviewer: Reviewer
    var smartSpoilers: bool

    /** The client starts with no dialogues, smart spoilers on, and the hash list read from its
        file. */
    constructor (botId: UserId, hashFile: string)
      requires Load(hashFile).Some?
      ensures this.botId == botId && smartSpoilers == SMART_SPOILERS
      ensures fresh(table) && table.flows == map[] && table.pendingEdit == map[]
      ensures fresh(reviewer) && reviewer.Valid() && reviewer.hashes == Load(hashFile).value
    {
      this.botId := botId;
      table := new Table();
      reviewer := new Reviewer(hashFile);
      smartSpoilers := SMART_SPOILERS;
    }

    /** `handle_dm`; `key` names the dialogue a report would open. */
    method HandleDm(m: FlowEngine.Msg, key: FlowKey) returns (route: DmRoute)
      modifies this, table
      ensures route == DmRouting(m.author == botId, m.content, old(smartSpoilers), old(table.FlowsOf(m.author)))
      ensures smartSpoilers == if route.SpoilersSet? then route.on else old(smartSpoilers)
      ensures table.flows == if route.ReportStarted? then old(table.flows)[m.author := [key]] else old(table.flows)
      ensures table.pendingEdit == old(table.pendingEdit)
    {
      var open := table.FlowsOf(m.author);
      route := DmRouting(m.author == botId, m.content, smartSpoilers, open);
      if route.SpoilersSet? {
        smartSpoilers := route.on;
      } else if route.ReportStarted? {
        assert open + [key] == [key];
        table.Register(m.author, key);
      }
    }

    /** `notify_user_edit_message`: the new edit-warning dialogue watches the message and joins
        the author's dialogues. */
    method NotifyUserEdit(m: FlowEngine.Msg, key: FlowKey)
      modifies table
      ensures table.pendingEdit == old(table.pendingEdit)[m.id := key]
      ensures table.flows == old(table.flows)[m.author := old(table.FlowsOf(m.author)) + [key]]
    {
      table.Watch(m.id, key);
      table.Register(m.author, key);
    }

    /** `on_raw_message_edit`, given whether the edit came from a server, whether the message
        could be fetched, and the text classifier's scores. */
    method HandleEdit(m: FlowEngine.Msg, inGuild: bool, found: bool, s: TextScores, key: FlowKey) returns (route: EditRoute)
      modifies table
      ensures route == EditRouting(inGuild, found, m.author == botId, m.content,
                                   if m.id in old(table.pendingEdit) then Some(old(table.pendingEdit)[m.id]) else None, s)
      ensures route.Notified? ==> table.pendingEdit == old(table.pendingEdit)[m.id := key]
                                  && table.flows == old(table.flows)[m.author := old(table.FlowsOf(m.author)) + [key]]
      ensures !route.Notified? ==> table.pendingEdit == old(table.pendingEdit) && table.flows == old(table.flows)
    {
      if !inGuild || !found || m.author == botId || Strip(m.content) == [] {
        return EditIgnored;
      }
      if m.id in table.pendingEdit {
        return Delegated(table.pendingEdit[m.id]);
      }
      var verdict := EditVerdict(s);
      if verdict.Some? {
        NotifyUserEdit(m, key);
        return Notified(verdict.value);
      }
      route := Passed;
    }

    /** `handle_channel_message`, corrected, given the classifiers' readings of the attachments
        and of the text and whether the bot may delete the message. The attachments are reviewed
        (and close hashes saved) only for a screened message from someone else; a warning opens
        the dialogue `key` for the author. */
    method HandleChannelMessage(c: Incoming, readings: seq<Reading>, s: TextScores, canDelete: bool, key: FlowKey)
      returns (effects: seq<ChannelEffect>)
      requires reviewer.Valid() && |readings| == |c.msg.attachments|
      modifies table, reviewer
      ensures reviewer.Valid()
      ensures var reviewed := Watched(c) && c.msg.author != botId && c.msg.attachments != [];
        reviewer.hashes == if reviewed then Reviewed(old(reviewer.hashes), c.msg.attachments, readings).1
                           else old(reviewer.hashes)
      ensures effects == ChannelPlan(c, c.msg.author == botId,
                                     Reviewed(old(reviewer.hashes), c.msg.attachments, readings).0, s, canDelete, BOT_FIXED)
      ensures Deletions(effects) <= 1 && Warnings(effects) <= 1 && (canDelete ==> !Failed(effects))
      ensures table.flows == if Warnings(effects) > 0
                             then old(table.flows)[c.msg.author := old(table.FlowsOf(c.msg.author)) + [key]]
                             else old(table.flows)
      ensures table.pendingEdit == old(table.pendingEdit)
    {
      var list := ReviewIfScreened(c, readings);
      effects := Plan(c, c.msg.author == botId, list, s, canDelete);
      if Warnings(effects) > 0 {
        table.Register(c.msg.author, key);
      }
    }

    /** The channel plan of `on_message`, with the bounds the handler relies on. */
    static method Plan(c: Incoming, fromSelf: bool, list: seq<ImageScores>, s: TextScores, canDelete: bool)
      returns (effects: seq<ChannelEffect>)
      requires |list| == |c.msg.attachments|
      ensures effects == ChannelPlan(c, fromSelf, list, s, canDelete, BOT_FIXED)
      ensures Deletions(effects) <= 1 && Warnings(effects) <= 1 && (canDelete ==> !Failed(effects))
    {
      effects := ChannelPlan(c, fromSelf, list, s, canDelete, BOT_FIXED);
      ChannelPlanIsOrderly(c, fromSelf, list, s, canDelete, BOT_FIXED);
    }

    /** `review_images`, called only for a screened message from someone else that has
        attachments; the entries are those the review would give in any case. */
    method ReviewIfScreened(c: Incoming, readings: seq<Reading>) returns (list: seq<ImageScores>)
      requires reviewer.Valid() && |readings| == |c.msg.attachments|
      modifies reviewer
      ensures reviewer.Valid()
      ensures list == Reviewed(old(reviewer.hashes), c.msg.attachments, readings).0
      ensures var reviewed := Watched(c) && c.msg.author != botId && c.msg.attachments != [];
        reviewer.hashes == if reviewed then Reviewed(old(reviewer.hashes), c.msg.attachments, readings).1
                           else old(reviewer.hashes)
    {
      if Watched(c) && c.msg.author != botId && c.msg.attachments != [] {
        list := reviewer.ReviewImages(c.msg.attachments, readings);
      } else {
        list := Reviewed(reviewer.hashes, c.msg.attachments, readings).0;
      }
    }
  }
}
