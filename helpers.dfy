/** Small pure helpers shared by the dialogues: help interception, numbered and yes/no reaction
    sets, user lookup by `name#discriminator`, comment joining and the rendering of report field
    values. Reactions are described by the configuration the `Reaction` constructor would hold;
    their handler is the text of the reply a click simulates. */
module Helpers {
  import opened Wrappers
  import opened Text
  import opened Consts
  import opened Textwrap
  import opened Reactions

  /** The arguments given to `makeHelpMsg`: several messages, or one iterable of messages. */
  datatype HelpArgs = Messages(msgs: seq<string>) | OneIterable(items: seq<string>)

  function HelpMessages(args: HelpArgs): seq<string> {
    match args
    case Messages(ms) => ms
    case OneIterable(items) => items
  }

  /** The function wrapped by `makeHelpMsg`: the help messages when the lower-cased input is a help
      keyword, and `None` (the wrapped handler runs, unchanged) otherwise. */
  function HelpIntercept(args: HelpArgs, input: string): (r: Option<seq<string>>)
    ensures r.Some? <==> Lower(input) in HELP_KEYWORDS
    ensures r.Some? ==> r.value == HelpMessages(args)
  {
    if Lower(input) in HELP_KEYWORDS then Some(HelpMessages(args)) else None
  }

  /** A yes, no or cancel answer, in any letter case, always reaches the wrapped handler. */
  lemma AnswersPassHelp(args: HelpArgs, input: string)
    requires Lower(input) in YES_KEYWORDS || Lower(input) in NO_KEYWORDS || Lower(input) in CANCEL_KEYWORDS
    ensures HelpIntercept(args, input) == None
  {
    KeywordSetsDisjoint();
  }

  /** The keycap emoji one to ten, in order. */
  const KEYCAPS: seq<string> := [
    "1\U{FE0F}\U{20E3}", "2\U{FE0F}\U{20E3}", "3\U{FE0F}\U{20E3}", "4\U{FE0F}\U{20E3}",
    "5\U{FE0F}\U{20E3}", "6\U{FE0F}\U{20E3}", "7\U{FE0F}\U{20E3}", "8\U{FE0F}\U{20E3}",
    "9\U{FE0F}\U{20E3}", "\U{1F51F}"]

  const CHECK_MARK: string := "\U{2705}"
  const NO_ENTRY: string := "\U{1F6AB}"

  /** A reaction whose one click handler simulates the reply `text`. */
  function ReplyOnClick(emoji: string, text: string): ReactionConfig<string> {
    ReactionConfig(emoji, [text], [], [], true)
  }

  /** `reactYesNo`: the check mark answers "yes" and the no-entry sign answers "no". */
  function ReactYesNo(): (r: seq<ReactionConfig<string>>)
    ensures |r| == 2 && r[0].emoji != r[1].emoji
    ensures r[0].clicks == ["yes"] && r[1].clicks == ["no"]
  {
    [ReplyOnClick(CHECK_MARK, "yes"), ReplyOnClick(NO_ENTRY, "no")]
  }

  /** `reactDone`: the check mark answers "done". */
  function ReactDone(): (r: seq<ReactionConfig<string>>)
    ensures |r| == 1 && r[0].emoji == CHECK_MARK && r[0].clicks == ["done"]
  {
    [ReplyOnClick(CHECK_MARK, "done")]
  }

  /** The replies simulated by the yes/no reactions are read as a yes and a no. */
  lemma YesNoRepliesAreAnswers()
    ensures Lower(ReactYesNo()[0].clicks[0]) in YES_KEYWORDS
    ensures Lower(ReactYesNo()[1].clicks[0]) in NO_KEYWORDS
    ensures Lower(ReactYesNo()[0].clicks[0]) !in NO_KEYWORDS
  {
    assert Lower("yes") == "yes";
    assert Lower("no") == "no";
  }

  /** The choices given to `reactNumerical`: a count n (meaning 1..n), or the text of each choice. */
  datatype Choices = Count(n: int) | Items(texts: seq<string>)

  /** "1", "2", ..., str(n). */
  function CountTexts(n: int): (r: seq<string>)
    ensures |r| == if n < 0 then 0 else n
    decreases n
  {
    if n <= 0 then [] else CountTexts(n - 1) + [DecimalString(n)]
  }

  /** The text of each choice, in order. */
  function ChoiceTexts(c: Choices): seq<string> {
    match c
    case Items(texts) => texts
    case Count(n) => CountTexts(n)
  }

  /** `reactNumerical`: reaction i shows keycap i+1 and replies with choice i; more than ten
      choices is a ValueError. */
  function ReactNumerical(c: Choices): (r: Result<seq<ReactionConfig<string>>, string>)
    ensures r.Err? <==> |ChoiceTexts(c)| > 10
    ensures r.Ok? ==> |r.value| == |ChoiceTexts(c)|
    ensures r.Ok? ==> forall i :: 0 <= i < |r.value| ==>
      r.value[i] == ReplyOnClick(KEYCAPS[i], ChoiceTexts(c)[i])
  {
    var texts := ChoiceTexts(c);
    if |texts| > 10 then Err("Too many choices; only ten choices allowed.")
    else Ok(seq(|texts|, i requires 0 <= i < |texts| => ReplyOnClick(KEYCAPS[i], texts[i])))
  }

  /** With a count, the i-th choice is the number i+1 written out. */
  lemma {:induction false} CountTextsAt(n: int, i: nat)
    requires i < n
    ensures CountTexts(n)[i] == DecimalString(i + 1)
    decreases n
  {
    if i < n - 1 {
      CountTextsAt(n - 1, i);
    }
  }

  /** `reactNumerical(n)` for 1 <= n <= 10 offers n reactions with distinct keycaps. */
  lemma ReactNumericalCountKeycaps(n: int)
    requires 1 <= n <= 10
    ensures ReactNumerical(Count(n)).Ok? && |ReactNumerical(Count(n)).value| == n
    ensures forall i, j :: 0 <= i < j < n ==>
      ReactNumerical(Count(n)).value[i].emoji != ReactNumerical(Count(n)).value[j].emoji
  {
    var r := ReactNumerical(Count(n)).value;
    forall i, j | 0 <= i < j < n
      ensures r[i].emoji != r[j].emoji
    {
      assert r[i].emoji == KEYCAPS[i] && r[j].emoji == KEYCAPS[j];
    }
  }

  /** Clicking keycap k of `reactNumerical(n)` replies with the number k. */
  lemma ReactNumericalCountReplies(n: int, i: nat)
    requires 1 <= n <= 10 && i < n
    ensures ReactNumerical(Count(n)).Ok? && |ReactNumerical(Count(n)).value| == n
    ensures ReactNumerical(Count(n)).value[i].clicks == [DecimalString(i + 1)]
    ensures DecimalValue(ReactNumerical(Count(n)).value[i].clicks[0]) == i + 1
  {
    CountTextsAt(n, i);
    DecimalRoundTrip(i + 1);
  }

  /** A guild member as the lookup sees them. */
  datatype Member = Member(id: nat, name: string, displayName: string, discriminator: string)

  /** The match of `#\d+$`: the position of a '#' after which the name is all digits, at least
      one. Only the last '#' can be followed by digits alone. */
  function DiscriminatorAt(name: string): (r: Option<nat>)
    ensures r.Some? ==> (r.value < |name| && name[r.value] == '#'
                         && |name| - r.value >= 2 && AllDigits(name[r.value + 1..]))
    ensures r.None? ==> forall p :: 0 <= p < |name| - 1 && name[p] == '#' ==> !AllDigits(name[p + 1..])
  {
    var t := TrailingDigits(name);
    TrailingDigitsFacts(name);
    if t < |name| && t >= 1 && name[|name| - t - 1] == '#' then Some(|name| - t - 1) else None
  }

  /** How many digits the name ends with. */
  function TrailingDigits(s: string): (n: nat)
    ensures n <= |s|
  {
    if s != [] && IsDigit(s[|s| - 1]) then TrailingDigits(s[..|s| - 1]) + 1 else 0
  }

  lemma {:induction false} TrailingDigitsFacts(s: string)
    ensures AllDigits(s[|s| - TrailingDigits(s)..])
    ensures TrailingDigits(s) < |s| ==> !IsDigit(s[|s| - TrailingDigits(s) - 1])
  {
    if s != [] && IsDigit(s[|s| - 1]) {
      var p := s[..|s| - 1];
      TrailingDigitsFacts(p);
      var n := TrailingDigits(p);
      assert s[|s| - (n + 1)..] == p[|p| - n..] + [s[|s| - 1]];
    }
  }

  /** A run of digits preceded by a non-digit is exactly the trailing run. */
  lemma {:induction false} TrailingDigitsUnique(s: string, n: nat)
    requires n < |s| && !IsDigit(s[|s| - n - 1]) && AllDigits(s[|s| - n..])
    ensures TrailingDigits(s) == n
  {
    if n > 0 {
      var p := s[..|s| - 1];
      assert p[|p| - (n - 1)..] == s[|s| - n..|s| - 1];
      assert p[|p| - (n - 1) - 1] == s[|s| - n - 1];
      assert IsDigit(s[|s| - n..][n - 1]);
      TrailingDigitsUnique(p, n - 1);
    }
  }

  /** The query `findUsers` compares names against, and the discriminator it filters by, AS
      WRITTEN: the digits are normalised by `str(int(...))` and the name is cut by the length of
      the normalised digits, so zero-padded digits leave part of themselves in the name. */
  function ParseQuery(name: string): (r: (string, Option<string>))
    ensures r.1 == ParseQueryFixed(name).1
    ensures DiscriminatorAt(name).None? ==> r.0 == name
    ensures |r.0| <= |name| && r.0 == name[..|r.0|]
  {
    match DiscriminatorAt(name)
    case None => (name, None)
    case Some(p) =>
      var discrim := DecimalString(DecimalValue(name[p + 1..]));
      var cut := |discrim| + 1;
      (if cut <= |name| then name[..|name| - cut] else "", Some(discrim))
  }

  /** The intended split: the name is what precedes the '#'. */
  function ParseQueryFixed(name: string): (r: (string, Option<string>))
    ensures r.1.Some? <==> DiscriminatorAt(name).Some?
    ensures r.1.None? ==> r.0 == name
    ensures r.1.Some? ==> |r.0| < |name| && r.0 == name[..|r.0|] && name[|r.0|] == '#'
                          && AllDigits(name[|r.0| + 1..]) && r.1.value == DecimalString(DecimalValue(name[|r.0| + 1..]))
  {
    match DiscriminatorAt(name)
    case None => (name, None)
    case Some(p) => (name[..p], Some(DecimalString(DecimalValue(name[p + 1..]))))
  }

  /** "bob#0042" is looked up as the name "bob#0". */
  lemma ParseQueryKeepsPadding()
    ensures ParseQuery("bob#0042") == ("bob#0", Some("42"))
    ensures ParseQueryFixed("bob#0042") == ("bob", Some("42"))
  {
    var q := "bob#0042";
    TrailingDigitsUnique(q, 4);
    assert q[4..] == "0042";
    assert "0"[..0] == "" && DecimalValue("0") == 0;
    assert "00"[..1] == "0" && DecimalValue("00") == 0;
    assert "004"[..2] == "00" && DecimalValue("004") == 4;
    assert "0042"[..3] == "004" && DecimalValue("0042") == 42;
    assert DecimalString(4) == "4";
    assert DecimalString(42) == "42";
    assert DiscriminatorAt(q) == Some(3);
    assert q[..3] == "bob" && q[..5] == "bob#0";
  }

  /** The fixed parse gives back the name and the number the query was built from. */
  lemma ParseQueryFixedRoundTrip(name: string, digits: string)
    requires digits != [] && AllDigits(digits)
    ensures ParseQueryFixed(name + "#" + digits) == (name, Some(DecimalString(DecimalValue(digits))))
  {
    var q := name + "#" + digits;
    assert q[|name| + 1..] == digits;
    assert q[..|name|] == name;
    assert q[|q| - |digits|..] == digits;
    TrailingDigitsUnique(q, |digits|);
  }

  /** Whether a member matches the name, ignoring ASCII letter case, by name or display name. */
  predicate NameMatches(m: Member, query: string) {
    Lower(m.name) == Lower(query) || Lower(m.displayName) == Lower(query)
  }

  predicate DiscriminatorMatches(m: Member, discrim: Option<string>) {
    discrim.None? || m.discriminator == discrim.value
  }

  /** The matching members, each once, in the order of `members`. */
  function Matching(members: seq<Member>, query: string, discrim: Option<string>): (r: seq<Member>)
    ensures forall m :: m in r <==> m in members && DiscriminatorMatches(m, discrim) && NameMatches(m, query)
    ensures NoDuplicates(r)
  {
    if members == [] then []
    else
      var m := members[|members| - 1];
      var rest := Matching(members[..|members| - 1], query, discrim);
      if DiscriminatorMatches(m, discrim) && NameMatches(m, query) && m !in rest then rest + [m] else rest
  }

  /** `findUsers(guild, name)` as written. */
  function FindUsers(members: seq<Member>, name: string): (r: seq<Member>)
    ensures forall m :: m in r <==> m in members && DiscriminatorMatches(m, ParseQuery(name).1)
                                    && NameMatches(m, ParseQuery(name).0)
  {
    var (query, discrim) := ParseQuery(name);
    Matching(members, query, discrim)
  }

  /** `findUsers` with the name cut before the '#'. */
  function FindUsersFixed(members: seq<Member>, name: string): (r: seq<Member>)
    ensures NoDuplicates(r)
    ensures forall m :: m in r <==> m in members && DiscriminatorMatches(m, ParseQueryFixed(name).1)
                                    && NameMatches(m, ParseQueryFixed(name).0)
  {
    var (query, discrim) := ParseQueryFixed(name);
    Matching(members, query, discrim)
  }

  /** A query "name#digits" finds exactly the members called `name` (by name or display name, in
      any ASCII letter case) whose discriminator is the number written without leading zeros. */
  lemma FindUsersFixedByTag(members: seq<Member>, name: string, digits: string, m: Member)
    requires digits != [] && AllDigits(digits)
    ensures m in FindUsersFixed(members, name + "#" + digits) <==>
      m in members && m.discriminator == DecimalString(DecimalValue(digits)) && NameMatches(m, name)
  {
    ParseQueryFixedRoundTrip(name, digits);
  }

  /** A member named "bob" with discriminator "42" is not found by "bob#0042". */
  lemma FindUsersMissesPaddedTag()
    ensures var bob := Member(1, "bob", "bob", "42");
      FindUsers([bob], "bob#0042") == [] && FindUsersFixed([bob], "bob#0042") == [bob]
  {
    ParseQueryKeepsPadding();
    var bob := Member(1, "bob", "bob", "42");
    assert Lower("bob") != Lower("bob#0") by {
      assert |Lower("bob")| != |Lower("bob#0")|;
    }
  }

  /** How many newlines `re.sub("^\n|\n$", "", t)` removes at the start: one, if there is one. */
  function LeadingCut(t: string): nat {
    if |t| > 0 && t[0] == '\n' then 1 else 0
  }

  /** How many it removes at the end: `\n$` matches a final newline, and also a newline right
      before a final newline. */
  function TrailingCut(t: string): nat {
    if |t| > 0 && t[|t| - 1] == '\n' then (if |t| > 1 && t[|t| - 2] == '\n' then 2 else 1) else 0
  }

  /** `re.sub("^\n|\n$", "", t)`. */
  function StripOuterNewlines(t: string): (r: string)
    ensures |r| <= |t|
  {
    var a, e := LeadingCut(t), TrailingCut(t);
    if |t| - e <= a then "" else t[a..|t| - e]
  }

  /** Only newlines are removed, at most one at the start and two at the end, and a text with no
      newline at either end is left alone. */
  lemma StripOuterNewlinesRemovesEnds(t: string)
    ensures var r, a := StripOuterNewlines(t), LeadingCut(t);
      a + |r| <= |t| && r == t[a..a + |r|] && |t| - |r| <= 3
      && (forall k :: 0 <= k < a ==> t[k] == '\n')
      && (forall k :: a + |r| <= k < |t| ==> t[k] == '\n')
    ensures t == [] || (t[0] != '\n' && t[|t| - 1] != '\n') ==> StripOuterNewlines(t) == t
  {
    var r := StripOuterNewlines(t);
    var a, e := LeadingCut(t), TrailingCut(t);
    assert a + |r| >= |t| - e;
  }

  /** `oneComment(*msgs)`: each message dedented and stripped of its outer newlines, joined with
      newlines in argument order. */
  function OneComment(msgs: seq<string>): (r: string)
    ensures msgs == [] ==> r == ""
    ensures |msgs| == 1 ==> r == StripOuterNewlines(Dedent(msgs[0]))
    ensures msgs != [] ==> var first := StripOuterNewlines(Dedent(msgs[0]));
      |first| <= |r| && r[..|first|] == first
  {
    Join(CommentPieces(msgs), "\n")
  }

  function CommentPieces(msgs: seq<string>): (r: seq<string>)
    ensures |r| == |msgs|
    ensures forall i :: 0 <= i < |msgs| ==> r[i] == StripOuterNewlines(Dedent(msgs[i]))
  {
    if msgs == [] then [] else [StripOuterNewlines(Dedent(msgs[0]))] + CommentPieces(msgs[1..])
  }

  /** When the pieces are single lines, splitting the comment on newlines gives back one piece per
      message, in argument order. */
  lemma OneCommentSplits(msgs: seq<string>)
    requires |msgs| >= 1
    requires forall i :: 0 <= i < |msgs| ==> '\n' !in CommentPieces(msgs)[i]
    ensures SplitOn(OneComment(msgs), '\n') == CommentPieces(msgs)
    ensures forall i :: 0 <= i < |msgs| ==> CommentPieces(msgs)[i] == StripOuterNewlines(Dedent(msgs[i]))
  {
    SplitOnJoin(CommentPieces(msgs), '\n');
  }

  /** A report field value as `reportPreview` meets it. */
  datatype FieldValue =
    | NoValue
    | Text(text: string)
    | Message(content: string)
    | Flag(flag: bool)
    | Abuse(abuse: AbuseType)
    | MemberValue(mention: string, displayName: string, discriminator: string)

  /** The field text `reportPreview` shows for a value. */
  function RenderFieldValue(v: FieldValue): (r: string)
    ensures v.NoValue? || v == Text("") ==> r == "*[Empty]*"
    ensures v.Text? && v.text != "" ==> r == v.text
    ensures v.Message? ==> r == v.content
    ensures v.Flag? ==> r == if v.flag then "Yes" else "No"
    ensures v.Abuse? ==> r == v.abuse.Value()
  {
    match v
    case NoValue => "*[Empty]*"
    case Text(s) => if s == "" then "*[Empty]*" else s
    case Message(c) => c
    case Flag(b) => if b then "Yes" else "No"
    case Abuse(a) => a.Value()
    case MemberValue(mention, name, d) => mention + " \U{2013} **" + name + "**#" + d
  }

  /** Only a linked message with no text renders as an empty field. */
  lemma RenderedEmptyOnlyForEmptyMessage(v: FieldValue)
    ensures RenderFieldValue(v) == "" <==> v == Message("")
  {
    if v.Abuse? {
      assert |v.abuse.Value()| > 0;
    }
  }

  /** The (name, text) pairs of the preview, in the order of the report's fields. */
  function ReportPreview(fields: seq<(string, FieldValue)>): (r: seq<(string, string)>)
    ensures |r| == |fields|
    ensures forall i :: 0 <= i < |r| ==> r[i] == (fields[i].0, RenderFieldValue(fields[i].1))
  {
    if fields == [] then []
    else [(fields[0].0, RenderFieldValue(fields[0].1))] + ReportPreview(fields[1..])
  }
}
