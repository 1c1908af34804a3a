/** What the report dialogues read out of a user's text: the three ids of a pasted message link
    (`re.search(r"/(\d+|@me)/(\d+)/(\d+)", text)`), the message such a link points to, and the
    first abuse category an answer selects by number or by keyword. */
module Parsing {
  import opened Wrappers
  import opened Text
  import opened FlowEngine

  /** The three groups of a link match: guild (digits or "@me"), channel and message. */
  datatype LinkIds = LinkIds(guild: string, channel: string, message: string)

  /** The length of the run of ASCII digits starting at i. */
  function DigitRun(s: string, i: nat): (n: nat)
    requires i <= |s|
    ensures i + n <= |s|
    decreases |s| - i
  {
    if i < |s| && IsDigit(s[i]) then 1 + DigitRun(s, i + 1) else 0
  }

  /** The run is all digits and is followed by a non-digit or the end. */
  lemma {:induction false} DigitRunFacts(s: string, i: nat)
    requires i <= |s|
    ensures AllDigits(s[i..i + DigitRun(s, i)])
    ensures i + DigitRun(s, i) == |s| || !IsDigit(s[i + DigitRun(s, i)])
    decreases |s| - i
  {
    if i < |s| && IsDigit(s[i]) {
      DigitRunFacts(s, i + 1);
      assert s[i..i + DigitRun(s, i)] == [s[i]] + s[i + 1..i + 1 + DigitRun(s, i + 1)];
    }
  }

  /** Where group 1 ends when it starts at i: after the digit run, or after "@me". A greedy digit
      run is the only way `\d+` can be followed by "/", so backtracking finds nothing shorter. */
  function GuildEnd(s: string, i: nat): Option<nat>
    requires i <= |s|
  {
    if DigitRun(s, i) > 0 then Some(i + DigitRun(s, i))
    else if i + 3 <= |s| && s[i] == '@' && s[i + 1] == 'm' && s[i + 2] == 'e' then Some(i + 3)
    else None
  }

  /** Where the three groups of a match starting at p end: the guild at g, the channel at c
      and the message at e, each group right after a "/". */
  predicate Ends(s: string, p: nat, g: nat, c: nat, e: nat) {
    p < g < c < e <= |s| && s[p] == '/' && GuildEnd(s, p + 1) == Some(g)
    && s[g] == '/' && DigitRun(s, g + 1) == c - g - 1 > 0
    && s[c] == '/' && DigitRun(s, c + 1) == e - c - 1 > 0
  }

  /** The ends of the match starting at position p, if the pattern matches there. */
  function MatchEnds(s: string, p: nat): (r: Option<(nat, nat, nat)>)
    requires p < |s|
    ensures r.Some? ==> Ends(s, p, r.value.0, r.value.1, r.value.2)
  {
    if s[p] != '/' then None
    else
      match GuildEnd(s, p + 1)
      case None => None
      case Some(g) =>
        if g < |s| && s[g] == '/' && DigitRun(s, g + 1) > 0 then
          var c := g + 1 + DigitRun(s, g + 1);
          if c < |s| && s[c] == '/' && DigitRun(s, c + 1) > 0 then Some((g, c, c + 1 + DigitRun(s, c + 1)))
          else None
        else None
  }

  /** The match starting at position p: the three groups between its ends. */
  function MatchAt(s: string, p: nat): (r: Option<LinkIds>)
    requires p < |s|
  {
    match MatchEnds(s, p)
    case None => None
    case Some((g, c, e)) => Some(LinkIds(s[p + 1..g], s[g + 1..c], s[c + 1..e]))
  }

  /** The leftmost match at or after position i. */
  function SearchFrom(s: string, i: nat): (r: Option<(nat, LinkIds)>)
    requires i <= |s|
    ensures r.Some? ==> i <= r.value.0 < |s| && MatchAt(s, r.value.0) == Some(r.value.1)
    ensures r.Some? ==> forall p :: i <= p < r.value.0 ==> MatchAt(s, p).None?
    ensures r.None? ==> forall p :: i <= p < |s| ==> MatchAt(s, p).None?
    decreases |s| - i
  {
    if i == |s| then None
    else match MatchAt(s, i)
      case Some(ids) => Some((i, ids))
      case None => SearchFrom(s, i + 1)
  }

  /** `re.search(r"/(\d+|@me)/(\d+)/(\d+)", text)`: the groups of the leftmost match. */
  function LinkSearch(s: string): Option<LinkIds> {
    match SearchFrom(s, 0)
    case None => None
    case Some((_, ids)) => Some(ids)
  }

  /** The guild of a match is a non-empty digit string or "@me". */
  lemma GuildOfMatch(s: string, p: nat)
    requires p < |s| && MatchAt(s, p).Some?
    ensures var d := MatchAt(s, p).value.guild; d == "@me" || (d != [] && AllDigits(d))
  {
    GuildShape(s, p + 1);
  }

  /** The channel of a match is a non-empty digit string. */
  lemma ChannelOfMatch(s: string, p: nat)
    requires p < |s| && MatchAt(s, p).Some?
    ensures var d := MatchAt(s, p).value.channel; d != [] && AllDigits(d)
  {
    var (g, c, e) := MatchEnds(s, p).value;
    RunShape(s, g + 1, c);
  }

  /** The message of a match is a non-empty digit string. */
  lemma MessageOfMatch(s: string, p: nat)
    requires p < |s| && MatchAt(s, p).Some?
    ensures var d := MatchAt(s, p).value.message; d != [] && AllDigits(d)
  {
    var (g, c, e) := MatchEnds(s, p).value;
    RunShape(s, c + 1, e);
  }

  /** A non-empty digit run is a non-empty digit string. */
  lemma RunShape(s: string, i: nat, j: nat)
    requires i <= j <= |s| && DigitRun(s, i) == j - i > 0
    ensures s[i..j] != [] && AllDigits(s[i..j])
  {
    DigitRunFacts(s, i);
  }

  /** The guild group is a non-empty digit string or "@me". */
  lemma GuildShape(s: string, i: nat)
    requires i <= |s| && GuildEnd(s, i).Some?
    ensures var d := s[i..GuildEnd(s, i).value]; d == "@me" || (d != [] && AllDigits(d))
  {
    if DigitRun(s, i) > 0 {
      RunShape(s, i, i + DigitRun(s, i));
    } else {
      assert s[i..i + 3] == [s[i], s[i + 1], s[i + 2]];
    }
  }

  /** A match sits in the text as "/guild/channel/message". */
  lemma MatchInText(s: string, p: nat)
    requires p < |s| && MatchAt(s, p).Some?
    ensures var ids := MatchAt(s, p).value;
      var link := "/" + ids.guild + "/" + ids.channel + "/" + ids.message;
      p + |link| <= |s| && s[p..p + |link|] == link
  {
    var (g, c, e) := MatchEnds(s, p).value;
    SlashJoined(s, p, g, c, e);
  }

  /** Three slices each after a slash, joined back with those slashes. */
  lemma SlashJoined(s: string, p: nat, g: nat, c: nat, e: nat)
    requires p < g < c < e <= |s| && s[p] == '/' && s[g] == '/' && s[c] == '/'
    ensures s[p..e] == "/" + s[p + 1..g] + "/" + s[g + 1..c] + "/" + s[c + 1..e]
  {
    assert s[p..e] == [s[p]] + s[p + 1..g] + [s[g]] + s[g + 1..c] + [s[c]] + s[c + 1..e];
  }

  /** A digit string followed by a non-digit (or the end) is the digit run at its start. */
  lemma {:induction false} DigitRunOf(s: string, i: nat, n: nat)
    requires i + n <= |s|
    requires forall k :: i <= k < i + n ==> IsDigit(s[k])
    requires i + n == |s| || !IsDigit(s[i + n])
    ensures DigitRun(s, i) == n
    decreases n
  {
    if n > 0 {
      DigitRunOf(s, i + 1, n - 1);
    }
  }

  /** A slice of digits followed by "/" or by the end is the digit run where it starts. */
  lemma RunOfSlice(s: string, i: nat, j: nat, d: string)
    requires i <= j <= |s| && s[i..j] == d && AllDigits(d) && (j == |s| || s[j] == '/')
    ensures DigitRun(s, i) == j - i
  {
    assert forall k :: i <= k < j ==> s[k] == s[i..j][k - i];
    DigitRunOf(s, i, j - i);
  }

  /** The three ends found by the scan make a match. */
  lemma MatchAtEnds(s: string, p: nat, g: nat, c: nat, e: nat)
    requires Ends(s, p, g, c, e)
    ensures MatchEnds(s, p) == Some((g, c, e))
    ensures MatchAt(s, p) == Some(LinkIds(s[p + 1..g], s[g + 1..c], s[c + 1..e]))
  {
  }

  /** "/g/c/m" matches where its first "/" stands. */
  lemma MatchOfParts(s: string, q: nat, g: string, c: string, m: string)
    requires g != [] && AllDigits(g) && c != [] && AllDigits(c) && m != [] && AllDigits(m)
    requires q < |s| && s[q] == '/' && s[q + 1..] == g + ("/" + c + "/" + m)
    ensures MatchAt(s, q) == Some(LinkIds(g, c, m))
  {
    var gs := q + 1 + |g|;
    var cs := gs + 1 + |c|;
    LinkSlices(s, q, g, c, m);
    SlicesEnds(s, q, gs, cs, g, c, m);
    MatchAtEnds(s, q, gs, cs, |s|);
  }

  /** The groups of "g/c/m" are the slices between its slashes. */
  lemma LinkSlices(s: string, q: nat, g: string, c: string, m: string)
    requires q < |s| && s[q + 1..] == g + ("/" + c + "/" + m)
    ensures var gs := q + 1 + |g|; var cs := gs + 1 + |c|;
      cs < |s| && s[gs] == '/' && s[cs] == '/'
      && s[q + 1..gs] == g && s[gs + 1..cs] == c && s[cs + 1..] == m && s[cs + 1..|s|] == m
  {
    var gs := q + 1 + |g|;
    var cs := gs + 1 + |c|;
    assert "/" + c + "/" + m == "/" + (c + ("/" + m));
    HeadSlash(s, q + 1, g, c + ("/" + m));
    HeadSlash(s, gs + 1, c, m);
    assert s[cs + 1..|s|] == s[cs + 1..];
  }

  /** Digit slices between the slashes at p, g and c, the last one running to the end,
      are the ends of a match. */
  lemma SlicesEnds(s: string, p: nat, g: nat, c: nat, gd: string, cd: string, md: string)
    requires p < g < c < |s| && s[p] == '/' && s[g] == '/' && s[c] == '/'
    requires s[p + 1..g] == gd && s[g + 1..c] == cd && s[c + 1..] == md
    requires gd != [] && AllDigits(gd) && cd != [] && AllDigits(cd) && md != [] && AllDigits(md)
    ensures Ends(s, p, g, c, |s|)
  {
    RunOfSlice(s, p + 1, g, gd);
    RunOfSlice(s, g + 1, c, cd);
    assert s[c + 1..|s|] == md;
    RunOfSlice(s, c + 1, |s|, md);
  }

  /** A text made of a prefix, "/" and the rest puts the slash right after the prefix. */
  lemma HeadSlash(s: string, i: nat, d: string, rest: string)
    requires i <= |s| && s[i..] == d + ("/" + rest)
    ensures i + |d| < |s| && s[i..i + |d|] == d && s[i + |d|] == '/' && s[i + |d| + 1..] == rest
  {
    assert s[i..][..|d|] == d;
    assert s[i..][|d|] == '/';
    assert s[i..][|d| + 1..] == rest;
  }

  const LINK_PREFIX: string := "https://discord.com/channels/"

  /** Nothing in "https://discord.com/channels" starts a match. */
  lemma PrefixHasNoMatch(s: string)
    requires |s| > |LINK_PREFIX| && s[..|LINK_PREFIX|] == LINK_PREFIX
    ensures forall p :: 0 <= p < |LINK_PREFIX| - 1 ==> MatchAt(s, p).None?
  {
    forall p | 0 <= p < |LINK_PREFIX| - 1
      ensures MatchAt(s, p).None?
    {
      assert s[p] == LINK_PREFIX[p];
      assert s[p + 1] == LINK_PREFIX[p + 1];
      if p == 6 {
        assert s[7..10] == LINK_PREFIX[7..10];
      }
    }
  }

  /** Reading the ids back out of a "Copy Message Link" link gives the ids it was made of. */
  lemma LinkRoundTrip(g: string, c: string, m: string)
    requires g != [] && AllDigits(g) && c != [] && AllDigits(c) && m != [] && AllDigits(m)
    ensures LinkSearch(LINK_PREFIX + g + "/" + c + "/" + m) == Some(LinkIds(g, c, m))
  {
    var pre := LINK_PREFIX[..|LINK_PREFIX| - 1];
    var s := pre + "/" + g + "/" + c + "/" + m;
    assert s == LINK_PREFIX + g + "/" + c + "/" + m;
    assert s[..|LINK_PREFIX|] == LINK_PREFIX;
    assert s[|pre|] == '/' && s[|pre| + 1..] == g + ("/" + c + "/" + m);
    MatchOfParts(s, |pre|, g, c, m);
    PrefixHasNoMatch(s);
    SearchSkips(s, 0, |pre|);
  }

  /** The search passes over positions where nothing matches. */
  lemma {:induction false} SearchSkips(s: string, i: nat, j: nat)
    requires i <= j <= |s|
    requires forall p :: i <= p < j ==> MatchAt(s, p).None?
    ensures SearchFrom(s, i) == SearchFrom(s, j)
    decreases j - i
  {
    if i < j {
      SearchSkips(s, i + 1, j);
    }
  }

  /** Text with no "/" holds no link. */
  lemma NoSlashNoLink(s: string)
    requires '/' !in s
    ensures LinkSearch(s) == None
  {
    assert forall p :: 0 <= p < |s| ==> s[p] != '/';
  }

  /** What the client finds behind ids: guild id to channel id to message id to message. */
  datatype Directory = Directory(guilds: map<nat, map<nat, map<nat, Msg>>>)

  /** The outcomes of reading a link, in the order the dialogue checks them. */
  datatype LinkOutcome =
    | Unreadable          // no match
    | InDms               // the guild part is "@me"
    | UnknownGuild        // `get_guild` found nothing
    | UnknownChannel      // `get_channel` found nothing
    | UnknownMessage      // `fetch_message` raised NotFound
    | Found(msg: Msg)

  /** Resolves the text a user pasted against the directory. */
  function ResolveLink(text: string, dir: Directory): (r: LinkOutcome)
    ensures r.Unreadable? <==> LinkSearch(text).None?
    ensures r.InDms? <==> LinkSearch(text).Some? && LinkSearch(text).value.guild == "@me"
    ensures r.Found? ==> exists g, c, m ::
      LinkSearch(text) == Some(LinkIds(g, c, m)) && AllDigits(g) && AllDigits(c) && AllDigits(m)
      && DecimalValue(g) in dir.guilds && DecimalValue(c) in dir.guilds[DecimalValue(g)]
      && DecimalValue(m) in dir.guilds[DecimalValue(g)][DecimalValue(c)]
      && r.msg == dir.guilds[DecimalValue(g)][DecimalValue(c)][DecimalValue(m)]
  {
    match SearchFrom(text, 0)
    case None => Unreadable
    case Some((p, ids)) =>
      GuildOfMatch(text, p);
      ChannelOfMatch(text, p);
      MessageOfMatch(text, p);
      if ids.guild == "@me" then InDms
      else
        var g, c, m := DecimalValue(ids.guild), DecimalValue(ids.channel), DecimalValue(ids.message);
        if g !in dir.guilds then UnknownGuild
        else if c !in dir.guilds[g] then UnknownChannel
        else if m !in dir.guilds[g][c] then UnknownMessage
        else Found(dir.guilds[g][c][m])
  }

  /** A pasted link to a message the client can fetch resolves to that message. */
  lemma LinkFound(g: string, c: string, m: string, dir: Directory)
    requires g != [] && AllDigits(g) && c != [] && AllDigits(c) && m != [] && AllDigits(m)
    requires DecimalValue(g) in dir.guilds && DecimalValue(c) in dir.guilds[DecimalValue(g)]
    requires DecimalValue(m) in dir.guilds[DecimalValue(g)][DecimalValue(c)]
    ensures ResolveLink(LINK_PREFIX + g + "/" + c + "/" + m, dir)
      == Found(dir.guilds[DecimalValue(g)][DecimalValue(c)][DecimalValue(m)])
  {
    LinkRoundTrip(g, c, m);
    assert IsDigit(g[0]) && !IsDigit('@');
  }

  /** Whether one of the words of the lower-cased answer is in the keyword group. */
  predicate Names(content: string, group: seq<string>) {
    AnyIn(Split(Lower(content)), group)
  }

  /** A one-word answer in lower case names a group exactly when the group holds it. */
  lemma NamesWord(w: string, group: seq<string>)
    requires Lower(w) == w && Split(w) == [w]
    ensures Names(w, group) <==> w in group
  {
    if w in group {
      assert Split(Lower(w))[0] == w;
    }
  }

  /** `content == str(k + 1) or any(keyword in groups[k] for keyword in content.lower().split())`. */
  predicate Selects(content: string, groups: seq<seq<string>>, k: nat)
    requires k < |groups|
  {
    content == DecimalString(k + 1) || Names(content, groups[k])
  }

  /** The first group, in table order, that the answer selects. */
  function FirstSelected(content: string, groups: seq<seq<string>>, from: nat): (r: Option<nat>)
    requires from <= |groups|
    ensures r.Some? ==> from <= r.value < |groups| && Selects(content, groups, r.value)
    ensures r.Some? ==> forall j :: from <= j < r.value ==> !Selects(content, groups, j)
    ensures r.None? ==> forall j :: from <= j < |groups| ==> !Selects(content, groups, j)
    decreases |groups| - from
  {
    if from == |groups| then None
    else if Selects(content, groups, from) then Some(from)
    else FirstSelected(content, groups, from + 1)
  }

  /** The choice number alone selects its own group when no earlier group names it. */
  lemma NumberSelects(groups: seq<seq<string>>, k: nat, s: string)
    requires k < |groups| && s == DecimalString(k + 1)
    requires forall j :: 0 <= j < k ==> !Names(s, groups[j])
    ensures FirstSelected(s, groups, 0) == Some(k)
  {
    assert Selects(s, groups, k);
    var r := FirstSelected(s, groups, 0);
    if r.Some? && r.value < k {
      DecimalStringInjective(k + 1, r.value + 1);
    }
  }
}
