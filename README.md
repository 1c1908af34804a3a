# A verified model of a Discord moderation bot

The bot watches one group channel of a Discord server and holds dialogues with users and
moderators in direct messages. This project models the bot's decision logic in Dafny and proves
properties of it. Discord itself, the classifiers and the clock are outside the model: what
they answer is passed in as parameters.

- **Dialogue engine** (`FlowEngine`, engine.dfy). The base class every dialogue uses. It has:
  - a state;
  - an optional quit state, with a one-slot snapshot that cancel keywords fill and `revert`
    restores;
  - help keywords, answered before any handler runs;
  - `say`, which sends outputs in order and attaches each button to the last message sent;
  - button clicks that simulate a reply, but only while the dialogue is still in the state the
    button was made in.

  The channel is an append-only log of events. A class `Flow` holds the state and the log.
- **The dialogues** (flow.py). Each dialogue has:
  - a pure step function, which serves as its specification;
  - a class that performs the same step on its fields, proved to match it.

  The dialogues are:
  - `SentWarningFlow`: the "send it anyway?" prompt after a flagged message, and its urgency
    table;
  - `EditWarningFlow`: the edit countdown, driven by an explicit `Tick`;
  - `UserReportFlow`: the report questionnaire;
  - `AutomatedReview`: a moderator's review of an automated report, with `perform_action`'s
    guards and its confirmation states;
  - `CsamReview`: the review of an image flagged as CSAM, which acts only while the report is
    being handled.
- **Reaction registry** (`Reactions`, reactions.py). The global list of (message, reaction)
  registrations, with registration, unregistration, and the add and remove events.
- **Legacy report dialogue** (`LegacyReport`, report.py). It includes the parsing of message
  links and keyword selection (`Parsing`).
- **Helpers and constants** (`Helpers`, `Consts`). Also Python's string primitives (`Text`)
  and `textwrap.dedent` (`Textwrap`).
- **Content reviewer** (`ContentReviewer`). The perceptual-hash blacklist of known CSAM images:
  - Hamming-distance matching;
  - the list's growth on near-duplicates;
  - the hexadecimal hash file, whose save and load form a round trip when the file ends with a newline;
  - the shape of `review_images`' result.
- **The bot** (`Bot`, `Scores`, `FlowTable`, `Claims`):
  - routing of direct messages;
  - the per-user dialogue stacks;
  - the text, edit and image score cascades;
  - CSAM candidate selection and `mark_as_csam`'s bookkeeping;
  - the claimable report (status, assignee, visibility) the review dialogues act on.

Several defects of the code as written are modelled next to their correction (see "## Findings").
Each such function takes a `Version` switch, or has an `AsWritten` twin. A lemma exhibits the
defect, and the rest of the model uses the corrected behaviour.

## Model

| member | source | states |
|---|---|---|
| Consts.YesNoDisjoint | consts.py:6-7 | no answer is both a yes keyword and a no keyword |
| Consts.KeywordSetsDisjoint | consts.py:3-7 | the help, cancel, yes and no keyword tuples are pairwise disjoint, so intercepting help or cancel never swallows a yes/no answer |
| Consts.OneLetterKeywords | consts.py:3-4 | a one-character answer is never a cancel keyword, and is a help keyword exactly when it is "?" |
| Consts.StartKeywordIsExact | consts.py:5 | membership in the one-element START_KEYWORDS tuple is equality with "report" |
| Consts.AbuseTypesEnumerated | consts.py:9-17 | AbuseType has exactly eight members, listed without repetition, and distinct members carry distinct display strings |
| Consts.ReportStatusesEnumerated | consts.py:19-22 | ReportStatus has exactly the three members NEW, PENDING and RESOLVED |
| Helpers.HelpIntercept | helpers.py:23-33 | the wrapped handler is bypassed exactly when the lower-cased input is a help keyword, and then the help messages (one iterable unpacked, or the several given) are the reply |
| Helpers.AnswersPassHelp | helpers.py:31 | a yes, no or cancel answer in any letter case always reaches the wrapped handler |
| Helpers.ReactYesNo | helpers.py:53-57 | two reactions with different emoji, the first replying "yes" and the second "no" |
| Helpers.ReactDone | helpers.py:60-63 | one check-mark reaction that replies "done" |
| Helpers.YesNoRepliesAreAnswers | helpers.py:53-57 | the replies the yes/no reactions simulate are read as a yes and as a no, never as the other |
| Helpers.CountTexts | helpers.py:67-68 | a count n gives n choices (none for a negative count) |
| Helpers.ReactNumerical | helpers.py:66-72 | more than ten choices is a ValueError; otherwise reaction i shows keycap i+1 and replies with the text of choice i, one reaction per choice |
| Helpers.CountTextsAt | helpers.py:67-68 | with a count, choice i is the number i+1 written in decimal |
| Helpers.ReactNumericalCountKeycaps | helpers.py:66-72 | for 1 to 10 choices by count, there are that many reactions and their keycaps are pairwise distinct |
| Helpers.ReactNumericalCountReplies | helpers.py:66-72 | clicking keycap i+1 of a counted menu replies with a text that reads back as the number i+1 |
| Helpers.DiscriminatorAt | helpers.py:78 | `#\d+$` matches at a '#' followed by one or more digits up to the end; when it does not match, no '#' in the name is followed by digits only |
| Helpers.TrailingDigits | helpers.py:78 | the digit run at the end of a name is no longer than the name |
| Helpers.TrailingDigitsFacts | helpers.py:78 | the trailing run is all digits and is preceded by a non-digit or the start |
| Helpers.TrailingDigitsUnique | helpers.py:78 | a digit run preceded by a non-digit is exactly the trailing run |
| Helpers.ParseQueryKeepsPadding | helpers.py:78-81 | as written, "bob#0042" is looked up as the name "bob#0" with discriminator "42"; cut at the '#' it is "bob" with "42" |
| Helpers.ParseQueryFixedRoundTrip | helpers.py:78-81 | cutting at the '#' gives back the name and the discriminator number the query was built from |
| Helpers.Matching | helpers.py:84-89 | a member is in the result exactly when it is a guild member with the discriminator (if any) and the name or display name, ignoring case; each at most once |
| Helpers.FindUsers | helpers.py:74-89 | as written: exactly the members matching the parsed query, discriminator included |
| Helpers.FindUsersFixed | helpers.py:74-89 | corrected: exactly the members matching the query cut at the '#', each once |
| Helpers.FindUsersFixedByTag | helpers.py:74-89 | "name#digits" finds exactly the members called name (by name or display name, any case) whose discriminator is the number without leading zeros |
| Helpers.FindUsersMissesPaddedTag | helpers.py:78-89 | as written, a member "bob" with discriminator "42" is not found by "bob#0042"; the corrected lookup finds them |
| Helpers.StripOuterNewlines | helpers.py:93 | removing a leading and a trailing newline never lengthens the text |
| Helpers.StripOuterNewlinesRemovesEnds | helpers.py:93 | only newlines are removed, at most one at the start and two at the end, and a text with no newline at either end is unchanged |
| Helpers.CommentPieces | helpers.py:92-93 | one piece per message, piece i being message i dedented and stripped of its outer newlines |
| Helpers.OneCommentSplits | helpers.py:92-93 | when each piece is a single line, splitting the joined comment on newlines gives back the pieces in argument order |
| Helpers.RenderFieldValue | helpers.py:42-48 | an absent or empty value shows "*[Empty]*", a message its content, a flag "Yes"/"No", an abuse type its display string, text itself |
| Helpers.RenderedEmptyOnlyForEmptyMessage | helpers.py:42-48 | a field renders as the empty string exactly when it is a linked message with no text |
| Helpers.ReportPreview | helpers.py:36-50 | one (name, text) pair per report field, in the report's field order, the text rendered from the value |
| Helpers.ParseQuery | helpers.py:78-81 | as written, the discriminator read is the intended one; without one the name is the whole query; the name searched for is always a prefix of the query |
| Helpers.ParseQueryFixed | helpers.py:78-81 | a discriminator is read exactly when `#\d+$` matches; without one the name is the whole query; with one the name is what precedes the '#', the rest is all digits, and the discriminator is that number in decimal without leading zeros |
| Helpers.OneComment | helpers.py:92-93 | no message gives the empty comment, one message gives it dedented and stripped of its outer newlines, and several start with the first so treated |
| Text.LStrip | flow.py:62 | `lstrip()` leaves a suffix of the text that starts with a non-space, and everything cut off is whitespace |
| Text.RStrip | flow.py:62 | `rstrip()` leaves a prefix of the text that ends with a non-space, and everything cut off is whitespace |
| Text.Strip | flow.py:62 | `strip()` starts and ends with a non-space, and is empty exactly when the text is all whitespace |
| Text.StripIsInfix | flow.py:62 | the stripped text is a contiguous piece of the original, with whitespace cut from both ends only |
| Text.StripIdempotent | flow.py:82 | stripping an already stripped reply changes nothing |
| Text.StripNonSpaceEnds | flow.py:62 | a text that starts and ends with a non-space strips to itself |
| Text.Lower | flow.py:66 | `lower()` keeps the length of the text |
| Text.LowerIsLowerCase | flow.py:66 | lower-cased text has no upper-case letter, so lower-casing twice changes nothing |
| Text.Split | flow.py:666 | `split()` yields nonempty words with no whitespace in them |
| Text.SplitWord | flow.py:666 | a single word with no whitespace splits into itself |
| Text.SplitHeadFits | flow.py:666 | the first word of a split is no longer than the text |
| Text.SplitOn | flow.py:17-18 | splitting on a separator yields at least one piece |
| Text.SplitOnJoin | helpers.py:93 | splitting on the separator undoes joining with it when no piece holds the separator |
| Text.DecimalString | helpers.py:80 | `str(n)` is nonempty, all digits, and starts with "0" only for zero |
| Text.DecimalRoundTrip | helpers.py:80 | `int(str(n)) == n` |
| Text.DecimalStringInjective | helpers.py:80 | distinct numbers give distinct decimal texts |
| Text.OneDigitWord | helpers.py:72 | the number of a menu entry from 1 to 9 is a single character, unchanged by `lower()` and split into itself |
| Text.HexString | content_reviewer.py:158-160 | the written hash is nonempty, hexadecimal digits only (so no whitespace), at least the padding width long |
| Text.ParseHex | content_reviewer.py:50 | `int(line, 16)` succeeds exactly when the stripped line is a nonempty run of hexadecimal digits |
| Text.HexRoundTrip | content_reviewer.py:50 | the hexadecimal text of a number reads back as that number |
| Text.HexLineRoundTrip | content_reviewer.py:50 | a written hash line, newline included, reads back as the hash |
| Text.Join | helpers.py:93 | joining nothing gives the empty text and one piece gives that piece; otherwise the result starts with the first piece, followed by the separator when there are two or more, and ends with the last piece |
| Textwrap.Indent | flow.py:17-18 | the indent is the longest prefix of spaces and tabs |
| Textwrap.CommonPrefix | flow.py:17-18 | the common prefix starts both strings and cannot be extended |
| Textwrap.Indents | flow.py:17-18 | at most one indent per line |
| Textwrap.IndentsOfNonBlank | flow.py:17-18 | every non-blank line contributes its indent |
| Textwrap.IndentsAreOfNonBlank | flow.py:17-18 | every indent considered comes from a non-blank line |
| Textwrap.MarginIsLongestCommonPrefix | flow.py:17-18 | the margin starts every indent and is the longest such prefix: some indent ends right after it, or two indents differ in the next character |
| Textwrap.MarginStartsNonBlank | flow.py:17-18 | the margin is a prefix of the indent of every non-blank line |
| Textwrap.DedentLines | flow.py:17-18 | one output line per input line, each dedented on its own |
| Textwrap.DedentLineFacts | flow.py:17-18 | dedenting a non-blank line removes only leading blanks and keeps a non-blank remainder that starts where the margin ends |
| Textwrap.DedentLinesSplit | flow.py:17-18 | dedented lines joined with newlines split back into the same lines |
| Textwrap.DedentSplit | flow.py:17-18 | dedenting works line by line |
| Textwrap.DedentLinesKeep | flow.py:17-18 | each non-blank line keeps its text after losing some leading blanks |
| Textwrap.DedentKeepsLines | flow.py:17-18 | `dedent` keeps the number of lines; a blank line becomes empty and every other line loses only leading spaces and tabs |
| Textwrap.OutStartsAtMargin | flow.py:17-18 | a dedented non-blank line is its original with exactly the margin removed |
| Textwrap.OutOfShortestIndent | flow.py:17-18 | a line whose indent is exactly the margin starts, once dedented, with neither a space nor a tab |
| Textwrap.LinesMarginIsLongest | flow.py:17-18 | when some line is non-blank, for every space or tab some non-blank dedented line does not start with it: no longer margin was common |
| Textwrap.DedentMarginIsLongest | flow.py:17-18 | after `dedent`, no space or tab starts every non-blank line of the text |
| Textwrap.DedentValue | flow.py:17-18 | a string is dedented and any other value is passed through unchanged |
| Textwrap.Margin | flow.py:17-18 | the margin found one indent at a time starts both the first and the last indent |
| Textwrap.Dedent | flow.py:17-18 | `dedent` works line by line: its lines are the text's lines each dedented by the margin of the non-blank lines |
| Reactions.NormaliseHandlers | reactions.py:18-27 | None becomes no handlers, a callable becomes a one-handler tuple, an iterable its tuple, and anything else is a TypeError |
| Reactions.MakeConfig | reactions.py:13-29 | a non-string emoji is a TypeError; otherwise construction succeeds exactly when every handler argument normalises, and then holds the emoji, the normalised handlers and the once-per-message flag |
| Reactions.NewReaction | reactions.py:5-30 | a fresh reaction holding exactly the validated configuration and no registrations, or the constructor's TypeError |
| Reactions.Reaction.constructor | reactions.py:16-30 | the reaction holds the given emoji, handlers and flag, and is registered on no message |
| Reactions.RemoveFirst | reactions.py:46 | `list.remove` takes out one entry when it is present and leaves the list alone otherwise |
| Reactions.Without | reactions.py:44-46 | every occurrence of the pair is gone and every other entry stays |
| Reactions.UnregisterKeepsOthers | reactions.py:44-46 | the removal loop never removes an entry other than the one being unregistered, and keeps the others in order |
| Reactions.UnregisterUnique | reactions.py:44-46 | with no duplicate registrations, unregistering removes the pair entirely despite the loop skipping the entry after a removal |
| Reactions.RetiredOnAdd | reactions.py:62-63 | only once-per-message registrations on the clicked message are retired |
| Reactions.RetiredOnAddMembers | reactions.py:55-63 | a registration is retired exactly when it is on the clicked message and once-per-message, whatever its emoji |
| Reactions.Surviving | reactions.py:62-65 | what survives a click holds no once-per-message registration on the clicked message |
| Reactions.RetireOnAdd | reactions.py:51-65 | with no duplicate registrations, a click unregisters exactly the once-per-message registrations on its message and keeps every other one, in order |
| Reactions.FiredOnAddAppend | reactions.py:39-61 | a reaction registered last fires its click handlers, then its toggle handlers, after all the ones registered before it |
| Reactions.FiredOnAddOtherMessage | reactions.py:51-76 | registrations on other messages never fire, on add or on remove |
| Reactions.Registry.constructor | reactions.py:78 | the process-wide registration list starts empty |
| Reactions.Registry.RegisterMessage | reactions.py:33-40 | when the emoji could be added, the pair is appended to both the reaction's list and the registry; otherwise the exception propagates and nothing changes |
| Reactions.Registry.UnregisterMessage | reactions.py:42-46 | when Discord removes the bot's reaction, the registry becomes what the index-walking removal loop leaves, stated by a function about which UnregisterKeepsOthers and UnregisterUnique are proved; when the removal raises, every registration stays |
| Reactions.Registry.OnReactionAdd | reactions.py:51-65 | the bot's own reactions do nothing; otherwise the handlers fired are the click then toggle handlers of each registration on that message with that emoji, in registration order, and each once-per-message registration on the message is unregistered exactly when Discord removed its reaction |
| Reactions.Registry.OnReactionRemove | reactions.py:68-76 | the bot's own reactions do nothing; otherwise the unclick then toggle handlers of each matching registration fire, in registration order, and nothing is unregistered |
| Reactions.UnregisterFrom | reactions.py:44-46 | the removal loop never lengthens the list, changes nothing when the pair is not listed, adds nothing, and keeps every entry other than the pair |
| Reactions.FiredOnAdd | reactions.py:55-61 | an added reaction fires every click and toggle handler of every registration on that message with that emoji, and no handler of any other registration |
| Reactions.FiredOnRemove | reactions.py:71-76 | a removed reaction fires every unclick and toggle handler of every registration on that message with that emoji, and no handler of any other registration |
| Reactions.Confirmed | reactions.py:64-65 | the retired registrations whose removal Discord carried out are all of them when every removal succeeds, none when every removal fails, and never anything else |
| Reactions.RetireOnAddConfirmed | reactions.py:51-65 | with no duplicate registrations, after a click a registration stays listed exactly when it was not retired or Discord's removal of its reaction failed; only once-per-message registrations on the clicked message leave the list |
| FlowEngine.CountImages | flow.py:33 | the number of images is at most the number of attachments |
| FlowEngine.CountFiles | flow.py:35 | the number of non-image files is at most the number of attachments |
| FlowEngine.ImagesAndFiles | flow.py:33-35 | every attachment is counted exactly once, as an image (it has a height) or as a file; there are no images exactly when no attachment has a height |
| FlowEngine.PreviewPlaceholder | flow.py:22-48 | the preview is the "no message content" placeholder exactly when there are no attachments and the stripped text is empty (or is that placeholder text itself) |
| FlowEngine.PreviewShape | flow.py:25-42 | the preview is the stripped text alone without attachments, the text then " + " then the image and file counts with both, and only the counts without text |
| FlowEngine.CountLabelStartsWithDigit | flow.py:37-42 | the count label is an italic marker followed by a decimal digit, so it can never be mistaken for the placeholder |
| FlowEngine.PluralAboveOne | flow.py:38-42 | a count takes the plural "s" exactly when it is above one |
| FlowEngine.SayFrom | flow.py:93-102 | say produces exactly one channel event per output it is handed |
| FlowEngine.SayLogAt | flow.py:90-102 | the k-th output becomes a sent message numbered by how many messages were sent before it, and a reaction is attached to the last message sent earlier in the same call (to none when there is none) |
| FlowEngine.PlayedSnoc | flow.py:90-102 | playing one more action appends exactly its events to the channel log and advances the message count by the messages it sends |
| FlowEngine.IndexButton | flow.py:156-157 | react_index(i) shows keycap i and its click simulates the reply str(i) in the state it was made in |
| FlowEngine.HelpReply | flow.py:159-173 | a decorated state answers with its help messages, in order, exactly when the lowered input is a help keyword |
| FlowEngine.CancelThenRevert | flow.py:63-68 | after a cancel, revert is offered and returns to the state the cancel was typed in, with the snapshot cleared |
| FlowEngine.SoundSnapshotKept | flow.py:63-68 | cancel (as intended) and revert keep the snapshot sound: a flow in its quit state has a snapshot, and the snapshot is never the quit state |
| FlowEngine.CancelTwiceLosesSnapshot | flow.py:66-68 | as written, a second cancel overwrites the snapshot with the quit state, so reverting stays in the quit state with nothing left to revert to; the intended cancel returns to the start |
| FlowEngine.Flow.constructor | flow.py:53-58 | a flow starts in its start state with its quit state, no snapshot and an empty channel |
| FlowEngine.Flow.Say | flow.py:90-102 | say appends its events to the channel log, advances the message count by the messages sent, and keeps the log equal to the played trace |
| FlowEngine.Flow.Do | flow.py:90-102 | an effect is appended to the channel log and the trace, and nothing else changes |
| FlowEngine.Flow.SetState | flow.py:122-123 | only the state changes |
| FlowEngine.Flow.Cancel | flow.py:66-68 | a cancel keyword enters the quit state and snapshots the state it came from, and keeps the snapshot sound |
| FlowEngine.Flow.ClearSnapshot | flow.py:63-65 | revert clears the snapshot and changes nothing else |
| FlowEngine.Flow.ReplyHandler | flow.py:136-141 | the handler simulates the given reply and is frozen in the current state |
| FlowEngine.ButtonRepliesAreAnswers | flow.py:136-153 | the yes, no and done buttons simulate replies that are yes, no and done answers, never help or cancel keywords, and fire only while the flow is still in the state that made them |
| FlowEngine.MessagePreviewText | flow.py:22-48 | no text and no attachment give the placeholder; otherwise the preview starts with the stripped text, is exactly that text when there is no attachment, and ends with the image and file counts when there are attachments |
| FlowEngine.Cancelled | flow.py:66-68 | as written, a cancel enters the quit state and snapshots the state it was typed in, so revert goes back there; typed in the quit state, the snapshot is the quit state itself |
| FlowEngine.CancelledFixed | flow.py:66-68 | as intended, a cancel always ends in the quit state; outside it, it does what the code does, and inside it, it changes nothing, so the snapshot stays sound |
| FlowEngine.Reverted | flow.py:63-65 | revert is possible exactly when there is a snapshot, and then returns to the snapshot's state with the snapshot cleared |
| FlowEngine.Flow.Fires | flow.py:136-141 | a click, transition or action handler always runs; a simulated reply runs exactly when the flow is still in the state the handler was made in |
| FlowEngine.Flow.ReactYes | flow.py:144-146 | react_yes is a ✅ reaction whose only handler is a toggle handler simulating "yes" |
| FlowEngine.Flow.ReactNo | flow.py:148-150 | react_no is a 🚫 reaction whose only handler is a toggle handler simulating "no" |
| FlowEngine.Flow.ReactDone | flow.py:152-154 | react_done is a ✅ reaction whose only handler is a toggle handler simulating "done" |
| FlowEngine.SayFromSaysOnly | flow.py:90-102 | say sends messages and registers reactions but performs no other effect |
| FlowEngine.PlayedEffects | flow.py:90-102 | the channel log shows exactly the effects of the trace: each effect in the log was performed, and each effect performed is in the log |
| FlowTable.Table.constructor | bot.py:57-58 | the client starts with no open dialogues and no message awaiting an edit |
| FlowTable.Table.RemovalError | flow.py:241 | removing a flow from a user's list fails (KeyError or ValueError) exactly when the flow is not listed for that user |
| FlowTable.Table.Register | bot.py:182-183 | opening a dialogue appends it to the end of that user's list, creating the list if needed, and touches nothing else |
| FlowTable.Table.Remove | flow.py:486 | closing a dialogue removes its first occurrence from the user's list, or raises and changes nothing when it is not listed |
| FlowTable.Table.Watch | bot.py:181 | the edited message is now watched by the new dialogue, replacing any earlier watcher; the dialogue lists are unchanged |
| FlowTable.Table.Forget | flow.py:487 | forgetting a watched message removes exactly that entry; a message that is not watched raises KeyError and changes nothing |
| FlowTable.Reposts.constructor | bot.py:60-61 | the client starts with no aliases and no pairs |
| FlowTable.Reposts.Record | flow.py:312-319 | both posts of a re-send stand for the original, the original stands for its replacement, and prefix and replacement name each other |
| Claims.Assigned | flow.py:1136-1147 | an assigned report is pending and held by its moderator, which is what perform_action requires before acting, and it keeps its hidden and deleted flags |
| Claims.Resolved | flow.py:1233-1235 | a resolved report keeps the moderator who resolved it and its message flags, and stays coherent |
| Claims.Unassigned | flow.py:1230-1232 | an unassigned report is new again with nobody assigned, and keeps its message flags |
| Claims.Moderated | flow.py:1148-1186 | a successful hide hides the message, reveal shows it and delete deletes it; a failed call, kick or ban leaves the report unchanged, and none of them changes status or assignee |
| Claims.Report.constructor | flow.py:330-336 | a report enters the queue new and unassigned, carrying whether the message was hidden and deleted |
| Claims.Report.Assign | flow.py:1136-1147 | assigning changes the report as Assigned describes |
| Claims.Report.Resolve | flow.py:1233-1235 | resolving changes the report as Resolved describes |
| Claims.Report.Unassign | flow.py:1230-1232 | unassigning changes the report as Unassigned describes |
| Claims.Report.Moderate | flow.py:1158-1185 | the call reports whether Discord carried it out and the report changes as Moderated describes |
| Scores.TextVerdict | bot.py:302-323 | a new message is flagged exactly when one threshold of the cascade is crossed; it is spoilered exactly when one of the four 0.9 thresholds of the explicit tier is crossed; spam is chosen only when no other rule fires |
| Scores.EditVerdict | bot.py:119-136 | an edited message gets the same verdict as a new one, except that spam never flags an edit |
| Scores.SosBand | bot.py:325-327 | every flagged message lies inside the 🆘 band, and the band is the listed lower thresholds |
| Scores.FlaggingIsMonotone | bot.py:302-327 | raising any score never un-flags a message, never drops it out of the explicit tier and never drops it out of the 🆘 band |
| Scores.Peak | bot.py:263-266 | the per-key maximum bounds every score, is never negative, and is either 0 or one of the scores |
| Scores.PeakAbove | bot.py:263-266 | the maximum passes a threshold exactly when some attachment's score does |
| Scores.ImageVerdict | bot.py:268-276 | images are flagged exactly when adult passes 0.85, gore 0.75 or racy 0.8; they are always spoilered; violence is named exactly when gore fires without adult |
| Scores.ImagesFlaggedByOne | bot.py:261-276 | a message's images are flagged exactly when one attachment alone crosses a threshold |
| Scores.CsamCandidate | bot.py:286 | an attachment is a candidate exactly when its score passes 0.73 or its hash matched; a non-image whose score does not pass raises KeyError on the missing hash entry |
| SentWarningFlow.Urgency | flow.py:207-216 | a given urgency is kept; otherwise spam and no abuse type give 0, violence gives 2, sexual, hateful and harassment give 1, and the three abuse types the table lacks raise KeyError |
| SentWarningFlow.SentBad | flow.py:188-219 | making the warning fails exactly when the urgency lookup fails, and otherwise keeps the message, abuse type and explicitness and files reports |
| SentWarningFlow.CsamDummy | flow.py:352-358 | the dummy warning is explicit, names sexual content with urgency 1, never raises and never files a report |
| SentWarningFlow.EscapeBars | flow.py:299 | escaping never shortens the text and leaves a first character that is not a bar in place |
| SentWarningFlow.EscapedHasNoOpenPair | flow.py:299 | after escaping, every pair of adjacent bars is preceded by a backslash, so none can close a spoiler |
| SentWarningFlow.SpoilerHidesWholeMessage | flow.py:271-306 | with smart spoilers an explicit message is wrapped in exactly one spoiler pair around a non-empty body with no open pair of its own; an empty message gives an empty post |
| SentWarningFlow.Leave | flow.py:240-243 | leaving closes the flow exactly when removal from the user's list succeeds, settles the warning and disarms the timer only then; a failed removal raises before anything else runs |
| SentWarningFlow.Accepted | flow.py:236-250 | yes re-posts the message exactly once, files the report saying it was not deleted exactly when the warning reports, and never files one saying it was deleted |
| SentWarningFlow.Declined | flow.py:251-258 | no never re-posts and files the deleted report only with always_report, and only when leaving the list succeeded |
| SentWarningFlow.Answer | flow.py:233-260 | a reply re-posts exactly when it is a yes keyword, files the not-deleted report exactly then, closes the flow exactly on yes or no when removal succeeds, and any other reply only gets a hint |
| SentWarningFlow.Reply | flow.py:233-260 | the intended dialogue ignores every reply once the warning is settled and otherwise answers as the code does |
| SentWarningFlow.Lapsed | flow.py:341-348 | the timeout settles and disarms the warning, closes the flow exactly when removal succeeds, never re-posts, and files the deleted report only with always_report |
| SentWarningFlow.RepostsAtMostOnce | flow.py:233-260 | under the intended dialogue any interleaving of replies, button presses and the timer re-posts at most once, and never after the warning was settled |
| SentWarningFlow.RunTwo | flow.py:233-260 | two inputs in a row are the first step followed by the second from the configuration it left |
| SentWarningFlow.ButtonsOutliveTheWarning | flow.py:233-260 | as written, pressing ✅ after the offer lapsed still re-posts the message and files a report; the intended dialogue ignores the press |
| SentWarningFlow.TypedYesThenButtonRepostsTwice | flow.py:136-145 | as written, a typed yes followed by a press of the still-registered ✅ re-posts the message twice |
| SentWarningFlow.SentWarning.constructor | flow.py:188-219 | a new warning has its facts and texts, a fresh flow with no quit state and an empty channel, and an armed, unsettled timer |
| SentWarningFlow.SentWarning.Begin | flow.py:221-232 | the introduction says what was flagged and why, previews the message, asks the question (mentioning hiding when explicit) and adds the yes and no buttons |
| SentWarningFlow.SentWarning.ForwardMessage | flow.py:61-75 | a forwarded reply performs exactly the Reply step, including the re-post bookkeeping |
| SentWarningFlow.SentWarning.Start | flow.py:233-260 | a reply performs exactly the Answer step, and the re-post bookkeeping changes exactly when it re-posts |
| SentWarningFlow.SentWarning.AcceptWarning | flow.py:236-250 | the yes branch performs exactly the Accepted step |
| SentWarningFlow.SentWarning.PointToRepost | flow.py:240-250 | the end of the yes branch leaves the list and then points the user to the re-post |
| SentWarningFlow.SentWarning.Publish | flow.py:238-239 | the yes branch first re-posts, records the aliases and pairs and puts 🆘 on the re-post, then files the not-deleted report |
| SentWarningFlow.SentWarning.DeclineWarning | flow.py:251-258 | the no branch performs exactly the Declined step |
| SentWarningFlow.SentWarning.Settle | flow.py:240-243 | removal from the list succeeds exactly when the flow is listed; only then is the flow closed and the timer cancelled, otherwise the error is raised and the list is untouched |
| SentWarningFlow.SentWarning.ResendMessage | flow.py:263-322 | the prefix and the (spoilered when explicit) message are posted, both posts are recorded as standing for the original, and then the re-post gets 🆘 |
| SentWarningFlow.SentWarning.SendReport | flow.py:322-338 | a report carrying the urgency, abuse type, hidden flag and deleted flag is filed, except by the dummy warning |
| SentWarningFlow.SentWarning.TimeoutResponse | flow.py:341-348 | the timeout performs exactly the Lapsed step |
| SentWarningFlow.RepostIsReportedAsOriginal | flow.py:547-557 | after a re-post, a report dialogue opened on either the replacement or the prefix post reports the original message |
| SentWarningFlow.Intro | flow.py:223-233 | the introduction has five outputs: the "flagged and removed" line (with no explanation when there is none), the message preview, the question (which mentions hiding exactly when the message is explicit), then the ✅ and 🚫 buttons |
| SentWarningFlow.Repost | flow.py:265-322 | the re-send is one re-post followed by 🆘 on it: a non-explicit message is posted unchanged; an explicit one is empty exactly when the message is empty, otherwise opens with a spoiler bar pair, and its prefix carries the caution line |
| SentWarningFlow.Report | flow.py:325-338 | at most one report is filed and nothing is re-posted; a report with the given outcome is filed exactly when the warning files reports, and never one with the opposite outcome |
| SentWarningFlow.Step | flow.py:221-260 | under the intended dialogue, a settled warning stays settled and ignores typed replies, a disarmed timer stays disarmed and its timeout does nothing, and one input re-posts at most once, never when settled or on a timeout |
| SentWarningFlow.StepAsWritten | flow.py:221-260 | as written, an input on an unsettled warning, and any timeout, does what the intended step does; a typed yes always re-posts once, even on a settled warning |
| SentWarningFlow.Run | flow.py:221-260 | no input leaves things as they were; settled and disarmed are never undone; under the intended dialogue, a settled warning re-posts nothing whatever follows |
| EditWarningFlow.Pad2 | flow.py:390-394 | the two-digit field is all digits and reads back as the number, and is exactly two characters below 100 |
| EditWarningFlow.TimerTextReadsBack | flow.py:384-394 | the countdown shows five characters, minutes and seconds of two digits each around a colon, the seconds below 60, and reads back as the seconds left |
| EditWarningFlow.StillBad | flow.py:457-468 | the intended still_bad holds for every edit the edit cascade flags and for every edit the written rules catch, and for nothing else beyond spam above 0.8 |
| EditWarningFlow.StillBadMissesExplicitEdits | flow.py:457-468 | as written, an edit still sexually explicit (0.95) or still flirtatious (0.85) counts as acceptable, although the same scores flag an edit in the first place |
| EditWarningFlow.Finishing | flow.py:482-487 | close hides the countdown message, stops the countdown only when corrected, leaves the list exactly when removal succeeds, closes exactly when the flow is listed and the message watched, and never deletes the flagged message |
| EditWarningFlow.Expiring | flow.py:408-418 | the expiry stops the countdown, deletes the flagged message exactly when it was not already gone, and closes exactly when the flow is listed and the message watched |
| EditWarningFlow.Resending | flow.py:448-451 | a re-send deletes the flagged message first (raising NotFound when it is already gone); as written it then raises on the missing re-post call and stays open; corrected it re-posts the content, spoilered when explicit, and closes |
| EditWarningFlow.Editing | flow.py:453-480 | an edit becomes the watched message; as written scoring raises; corrected, an edit still flagged returns to START with the still-flagged text and an acceptable one closes the dialogue; an edit never deletes the message |
| EditWarningFlow.Typing | flow.py:61-87 | a typed reply in START gets the help text, a re-send or the hint; in every other state it runs that state's handler |
| EditWarningFlow.Ticking | flow.py:396-406 | one second advances the count and shows the seconds left; the last second expires the dialogue, stops the countdown and deletes the message if still there; the count never passes ten minutes |
| EditWarningFlow.Step | flow.py:396-446 | no input makes the countdown pass the expiration |
| EditWarningFlow.Run | flow.py:396-446 | no sequence of inputs makes the countdown pass the expiration |
| EditWarningFlow.Seconds | flow.py:396-399 | n seconds of the countdown are n ticks and nothing else |
| EditWarningFlow.CountdownDeletes | flow.py:396-418 | left alone, the countdown runs out: after the remaining seconds the dialogue has expired, the countdown has stopped and the message is deleted |
| EditWarningFlow.StoppedCountdownIsIdle | flow.py:396-397 | once the countdown has stopped, seconds change nothing |
| EditWarningFlow.AcceptedEditIsKept | flow.py:478-487 | corrected, an acceptable edit stops the countdown, so however many seconds pass afterwards nothing is deleted |
| EditWarningFlow.CloseLeavesCountdownRunning | flow.py:482-487 | as written, close does not cancel the timer: an acceptable edit in the last second closes the dialogue and the flagged message is still deleted a second later |
| EditWarningFlow.AsWrittenEditsAndResendsFail | flow.py:448-455 | as written, every edit raises before it is scored, and a re-send deletes the message then raises, leaving the flow open |
| EditWarningFlow.EditWarning.constructor | flow.py:371-382 | a new warning watches its message, with a fresh flow in START and no quit state, zero seconds elapsed, the countdown running and neither countdown message nor button shown yet |
| EditWarningFlow.EditWarning.Begin | flow.py:422-441 | the introduction says what was flagged and why, shows the message, the two options and the 🗨 button, then posts the countdown message with the full ten minutes |
| EditWarningFlow.EditWarning.ForwardMessage | flow.py:61-87 | a forwarded reply performs exactly the Typing step on the stripped text |
| EditWarningFlow.EditWarning.Edited | flow.py:453-472 | an edit performs exactly the corrected Editing step |
| EditWarningFlow.EditWarning.Tick | flow.py:396-406 | one pass of the timer loop performs exactly the Ticking step |
| EditWarningFlow.EditWarning.Count | flow.py:399-404 | the count goes up by one second and the countdown message, when shown, shows the seconds left |
| EditWarningFlow.EditWarning.Click | flow.py:439 | a click on 🗨 performs the Resending step once; later clicks do nothing |
| EditWarningFlow.EditWarning.Resend | flow.py:448-451 | the RESEND state performs exactly the corrected Resending step |
| EditWarningFlow.EditWarning.Accept | flow.py:478-480 | ACCEPTABLE_EDIT closes and then thanks the author |
| EditWarningFlow.EditWarning.TimeExpired | flow.py:408-418 | TIME_EXPIRED performs exactly the Expiring step |
| EditWarningFlow.EditWarning.Expire | flow.py:409-415 | the countdown is cancelled and the flagged message deleted, a message already gone being ignored |
| EditWarningFlow.EditWarning.Close | flow.py:482-487 | close performs exactly the corrected Closing step |
| EditWarningFlow.EditWarning.Finish | flow.py:482-487 | close followed, when it got through, by the message to say |
| EditWarningFlow.EditWarning.Stop | flow.py:483-485 | the countdown stops and its message is deleted |
| EditWarningFlow.EditWarning.Leave | flow.py:486-487 | the flow leaves its author's list and then the pending-edit table; it succeeds exactly when listed and watched, and each failure raises and stops there |
| EditWarningFlow.TimerText | flow.py:384-394 | below a hundred minutes the countdown shows five characters with the colon in the middle |
| EditWarningFlow.Intro | flow.py:421-439 | the introduction has five outputs: the flagged line (just "flagged." without an explanation), the message card, the options text, the how-to text and the 🗨 button last |
| EditWarningFlow.StillBadAsWritten | flow.py:457-468 | as written, still_bad holds for every edit with threat or identity attack above 0.75, or severe toxicity, toxicity or insult above 0.9, and for nothing beyond spam above 0.8 and what the edit cascade flags |
| EditWarningFlow.Stopping | flow.py:482-484 | the first part of close deletes the countdown message exactly when it is shown, and (corrected) cancels the countdown exactly when it is running; it neither closes the flow nor deletes the flagged message |
| EditWarningFlow.Leaving | flow.py:486-487 | the rest of close does one thing: it closes the flow exactly when the flow is listed and the message watched, and raises the removal's error when the flow is not listed |
| EditWarningFlow.Closing | flow.py:482-487 | close hides the countdown message and, corrected, stops the countdown (as written a running countdown keeps running); it closes exactly when the flow is listed and the message watched, and performs effects only |
| EditWarningFlow.Accepting | flow.py:478-480 | an acceptable edit closes the dialogue, thanking the author exactly when the close got through; it never deletes the flagged message |
| EditWarningFlow.Showing | flow.py:400-402 | each second the countdown message, exactly when it is shown, is edited to a five-character display with the colon in the middle |
| UserReportFlow.AfterAbuse | flow.py:667-717 | once the abuse type is known the questionnaire goes to comments (spam, hateful, sexual), the victim question (harassment, bullying), the self-harm question (harmful) or the current-events question (violence, child abuse) |
| UserReportFlow.CommonGuilds | flow.py:764-767 | the shared guilds are exactly the bot's guilds that have the reporter as a member |
| UserReportFlow.SearchGuilds | flow.py:777-811 | the intended search reports not found exactly when no shared guild has a match, selects a member only when some guild has that member as its single match, and lists two or more matches only when some guild has exactly those |
| UserReportFlow.Transition | flow.py:122-128 | a transition sets the state (the start state moving on to the link question, or to the abuse menu when the message is known), keeps the form and the snapshot, closes only when entering FINISH_REPORT with the flow listed, and never sends a report |
| UserReportFlow.AbuseMenu | flow.py:643-659 | the menu text followed by the keycap buttons 1 to 8, each simulating its own number |
| UserReportFlow.Answer | flow.py:577-931 | outside the quit question, no answer touches the snapshot or enters the quit state |
| UserReportFlow.TargetAnswer | flow.py:725-740 | yes makes the reporter the victim and moves to comments; no asks who the victim is with the form unchanged; anything else stays |
| UserReportFlow.CommentAnswer | flow.py:868-883 | the answer moves to the final review, with no comments on done and the answer as the comments otherwise |
| UserReportFlow.FinalizeAnswer | flow.py:886-907 | a report is sent exactly on done, first, carrying the form's abuse type, urgency and comments, and the flow moves to FINISH_REPORT marked submitted; any other answer changes nothing |
| UserReportFlow.QuitAnswer | flow.py:917-931 | the quit question never changes the form or sends a report; only no with a snapshot leaves the quit state, returning to the state the cancel was typed in with the snapshot cleared |
| UserReportFlow.LinkAnswer | flow.py:577-640 | the link answer stays put unless the message was found, moves only to the abuse menu, and never touches the abuse type |
| UserReportFlow.Located | flow.py:622-640 | the found message (the original when the link names a re-post, with the re-post kept) is recorded and shown, and the abuse menu follows |
| UserReportFlow.AbuseAnswer | flow.py:643-719 | the answer either stays (when no group is selected) or records an abuse type and moves to the question that type calls for |
| UserReportFlow.AbuseChosen | flow.py:667-717 | the k-th menu entry records its abuse type, acknowledges the selection first, and moves to the state AfterAbuse gives |
| UserReportFlow.UrgencyAnswer | flow.py:817-865 | yes and no record the urgency and move to comments; anything else stays |
| UserReportFlow.VictimAnswer | flow.py:746-811 | the victim answer either stays or moves to comments, keeping the snapshot and sending no report |
| UserReportFlow.Searched | flow.py:790-811 | only a single match moves on, recording that member as the victim |
| UserReportFlow.StartForm | flow.py:547-557 | a new form is blank; a message the bot re-posted is replaced by its original, which raises KeyError exactly when the original is unknown |
| UserReportFlow.ReportCreation.constructor | flow.py:547-557 | a new flow has its reporter and form, starts in REPORT_START with the quit state REPORT_QUIT and no snapshot, and an empty channel |
| UserReportFlow.ReportCreation.Begin | flow.py:548 | the scheduled first transition performs exactly the Transition step to REPORT_START |
| UserReportFlow.ReportCreation.TransitionToState | flow.py:122-128 | transition_to_state performs exactly the Transition step |
| UserReportFlow.ReportCreation.Introduction | flow.py:560-931 | the introduction of each state is exactly the outputs Intro gives, buttons included |
| UserReportFlow.ReportCreation.SayThenTransition | flow.py:633-640 | saying outputs and then transitioning performs the outputs followed by the Transition step |
| UserReportFlow.ReportCreation.FinishReport | flow.py:909-911 | finish_report leaves the reporter's list and thanks them, or raises when the flow is not listed |
| UserReportFlow.ReportCreation.ForwardMessage | flow.py:61-75 | a forwarded reply performs exactly the Respond step |
| UserReportFlow.ReportCreation.ResolveMessage | flow.py:78-87 | resolve_message performs exactly the Handle step |
| UserReportFlow.ReportCreation.AwaitingMessageLink | flow.py:577-640 | awaiting_message_link performs exactly the LinkAnswer step |
| UserReportFlow.ReportCreation.Locate | flow.py:622-640 | the found message is recorded and shown and the abuse menu follows, as Located describes |
| UserReportFlow.ReportCreation.AwaitingAbuseType | flow.py:643-719 | awaiting_abuse_type performs exactly the AbuseAnswer step |
| UserReportFlow.ReportCreation.CheckIfVictim | flow.py:725-740 | check_if_victim performs exactly the TargetAnswer step |
| UserReportFlow.ReportCreation.SharedGuilds | flow.py:764-767 | the loop collects exactly the shared guilds, in the client's order |
| UserReportFlow.ReportCreation.SearchVictim | flow.py:777-811 | the loop over the shared guilds computes exactly the intended search |
| UserReportFlow.ReportCreation.AskForVictim | flow.py:746-811 | ask_for_victim performs exactly the VictimAnswer step |
| UserReportFlow.ReportCreation.AnswerSearch | flow.py:790-811 | the outcome of the search is answered as Searched describes |
| UserReportFlow.ReportCreation.UrgencyCheck | flow.py:817-865 | suicide_check and current_events_check perform exactly the UrgencyAnswer step |
| UserReportFlow.ReportCreation.AddComment | flow.py:868-883 | add_comment performs exactly the CommentAnswer step |
| UserReportFlow.ReportCreation.FinalizeReport | flow.py:886-907 | finalize_report performs exactly the FinalizeAnswer step |
| UserReportFlow.ReportCreation.ReportQuit | flow.py:917-931 | report_quit performs exactly the QuitAnswer step |
| UserReportFlow.RespondKeepsSound | flow.py:61-87 | every reply keeps the snapshot sound: in the quit state there is a state to return to, and it is never the quit state |
| UserReportFlow.AnswerKeepsSound | flow.py:577-931 | every answer keeps the snapshot sound |
| UserReportFlow.QuitKeepsSound | flow.py:917-931 | answering the quit question keeps the snapshot sound |
| UserReportFlow.StageKept | flow.py:577-931 | a form that keeps its message and abuse type stays in the stage it was in |
| UserReportFlow.RespondKeepsCoherent | flow.py:61-87 | every reply keeps the form in step with the questionnaire: past the link it has its message, past the menu its abuse type, for the state and for the snapshot |
| UserReportFlow.AnswerKeepsCoherent | flow.py:577-931 | every answer keeps the form in step with the questionnaire |
| UserReportFlow.SentReportsAreComplete | flow.py:886-907 | a report is sent only from the final review on done, with the form's answers, and in a coherent configuration it has its message and abuse type |
| UserReportFlow.HelpChangesNothing | flow.py:159-173 | a help keyword, in any state that offers help, answers with that state's help text and changes nothing |
| UserReportFlow.NumberPicksAbuse | flow.py:667-717 | typing the number of a menu entry records that entry's abuse type, acknowledges it first and asks the question the type calls for |
| UserReportFlow.NumberIsNoKeyword | flow.py:666-711 | a menu number is neither a cancel nor a help keyword and selects its own entry |
| UserReportFlow.OneLetterNamesNoGroup | flow.py:667-711 | no keyword of the abuse menu is a single character |
| UserReportFlow.CancelThenNoResumes | flow.py:61-87 | cancel in a question asks whether to quit; no then returns to the state it was typed in and introduces it again, with the snapshot cleared and the form untouched |
| UserReportFlow.CancelAsks | flow.py:66-72 | cancel typed outside the quit question enters it, keeps the state it was typed in as the snapshot, leaves the form alone and asks whether to quit |
| UserReportFlow.QuitNoResumes | flow.py:928-929 | no to the quit question goes back to the snapshot's state, introducing it again, clears the snapshot and leaves the form untouched |
| UserReportFlow.QuitYesCloses | flow.py:925-927 | yes to the quit question says the report is cancelled and closes the flow, or raises when it is no longer listed |
| UserReportFlow.SubmitSendsThenCloses | flow.py:886-911 | done at the final review sends the report, then closes the flow and thanks the reporter |
| UserReportFlow.VictimSearchStopsEarly | flow.py:777-811 | as written, the search gives up at the first shared guild with no match, even when a later guild has the victim; the intended search finds the victim in either order |
| UserReportFlow.SelectionReply | flow.py:667-711 | the reply to a selection starts with "You selected" and the entry; spam and harassment get nothing more, and the emergency warning follows exactly for bullying, harmful content, violence and child abuse |
| UserReportFlow.AmbiguousText | flow.py:798-804 | the several-matches reply starts with the "multiple results" line and ends with the reporter's own name#discriminator as the example to follow |
| UserReportFlow.NotFoundText | flow.py:807-811 | the not-found reply is the opening text, then the query exactly as typed, then the advice |
| UserReportFlow.ReportFields | flow.py:933-958 | as_embed has the abuse type ("*[Unspecified]*" exactly when none was chosen) and the message first, the victim third when asked, the urgency next to last when asked, and the comments ("*[None]*" when there are none) last |
| UserReportFlow.SearchGuildsAsWritten | flow.py:785-811 | as written, the loop goes on only through guilds with exactly one match, one selected member each; it stops at the first guild with no match (not found) or with several (at least two, listed), and runs out only when every guild had one match |
| UserReportFlow.Intro | flow.py:560-931 | REPORT_START and FINISH_REPORT introduce nothing; each yes/no question ends with its ✅ and 🚫 buttons, comments, the victim question and the final review end with the done button, and the final review shows the report's fields with the not-submitted footer until it is submitted |
| UserReportFlow.Respond | flow.py:61-75 | a cancel keyword enters REPORT_QUIT with the form kept and no report sent, snapshotting the state it was typed in (already in REPORT_QUIT it changes nothing); anything else is handled by the current state |
| UserReportFlow.Handle | flow.py:78-88 | help in a state that has help changes nothing and sends no report; FINISH_REPORT changes nothing and closes exactly when removal succeeds; REPORT_START moves to the abuse menu when the message is known and to the link question otherwise |
| AutomatedReview.Menu | flow.py:1241-1258 | the command list comes first, followed by the six buttons: 👁 toggles visibility, 🗑 🥾 💀 ask for a confirmation, 🚫 unassigns and ✅ resolves |
| AutomatedReview.Refusal | flow.py:1137-1147 | perform_action refuses to act exactly when the reviewer does not hold the report being handled; on a new report it gives the "not assigned" warning; it raises only when the claim is incoherent (in progress without an assignee) |
| AutomatedReview.Restarted | flow.py:1313-1326 | review_restart puts the dialogue back in REVIEW_START and lists the commands, touching nothing else |
| AutomatedReview.Carried | flow.py:1157-1163 | the moderation call comes first, then its outcome is reported and the dialogue returns to the menu; the report changes as the call's success dictates, and no other moderation is done |
| AutomatedReview.OnMessage | flow.py:1152-1187 | hide, reveal and delete on a message that is already deleted only say so and leave the report alone (as written the restart is started without being awaited, so the state stays; corrected it returns to REVIEW_START); otherwise the action is carried out |
| AutomatedReview.Kick | flow.py:1188-1202 | the kick is carried out exactly when the message is not in a DM channel and its author is still a member of the guild; the dialogue ends in REVIEW_START and the report is unchanged |
| AutomatedReview.Ban | flow.py:1203-1228 | from a DM channel, or without the right to read the bans, only a warning is given; as written, any non-empty ban list raises AttributeError (a ban entry holds its user and has no id of its own); corrected, the ban goes ahead exactly when no entry's user is the author |
| AutomatedReview.Perform | flow.py:1136-1235 | refusals come first; unassign and resolve change the claim and say so; the state stays or returns to REVIEW_START; a coherent claim stays coherent; only the meant action is asked of Discord, and nothing at all when the reviewer does not hold the report |
| AutomatedReview.Transition | flow.py:122-128 | the state becomes s or returns to REVIEW_START; only REVIEW_QUIT touches the report, by performing unassign; no moderation happens on entering a state |
| AutomatedReview.StartTyped | flow.py:1259-1311 | a reply typed in REVIEW_START can at most hide or reveal; it changes nothing unless the reviewer holds the report; coherence is kept |
| AutomatedReview.StartWords | flow.py:1280-1311 | the same guarantees hold for a reply that is not a help keyword, whether it is help on one command or a command |
| AutomatedReview.Helped | flow.py:1280-1297 | help on one command changes neither the dialogue nor the report, and moderates nothing |
| AutomatedReview.StartCommand | flow.py:1298-1311 | a typed command can at most hide or reveal (delete, kick and ban only open their confirmation state); it changes nothing unless the reviewer holds the report; coherence is kept |
| AutomatedReview.ConfirmTyped | flow.py:1328-1402 | in a confirmation state, yes performs the confirmed action and no returns to the menu; only that action can be asked of Discord; nothing changes unless the reviewer holds the report |
| AutomatedReview.OnlyTheAssigneeActs | flow.py:1145-1147 | whatever someone other than the assignee types, the report's claim is unchanged and Discord is asked for nothing |
| AutomatedReview.IrreversibleActionsAreConfirmed | flow.py:1298-1308 | delete, kick and ban happen only from their own confirmation state; any other reply at most hides or reveals |
| AutomatedReview.CoherenceKept | flow.py:1136-1235 | whatever is typed, a report that is new exactly when nobody is assigned stays that way |
| AutomatedReview.EyeFlipsVisibility | flow.py:1149-1175 | when Discord carries it out, 👁 flips the visibility of a message that is still there and returns to the menu |
| AutomatedReview.CancelUnassigns | flow.py:1404-1405 | a cancel keyword unassigns the moderator and tells them so; every later reply only warns that the report is not assigned |
| AutomatedReview.ResolvedIsFinal | flow.py:1233-1235 | after ✅ resolves a report, nobody holds it any longer, not even the one who resolved it |
| AutomatedReview.KeywordHasAWord | flow.py:1280 | every help and cancel keyword splits into at least one word |
| AutomatedReview.WordlessReplyRaises | flow.py:1280 | a reply with no word in it (an attachment alone, say) raises IndexError in REVIEW_START and changes nothing |
| AutomatedReview.BanListAsWritten | flow.py:1373-1391 | as written, both ban checks (on entering CONFIRM_BAN and on confirming it) raise AttributeError as soon as the guild has banned anyone, leaving the dialogue where it was; corrected, an author who is already banned is reported as such and for any other author the question is asked, and yes asks Discord for the ban |
| AutomatedReview.DeletedWhileConfirming | flow.py:1176-1181 | as written, confirming the deletion of a message that is already gone leaves the dialogue in CONFIRM_DELETE; corrected, it returns to the menu |
| AutomatedReview.Review.constructor | flow.py:1131-1134 | the dialogue starts in REVIEW_START, with REVIEW_QUIT as its quit state and an empty channel, over the given report and reviewer |
| AutomatedReview.Review.TransitionToState | flow.py:122-128 | the dialogue and the report take the state Transition gives, and the channel gains exactly its actions |
| AutomatedReview.Review.Restart | flow.py:1155 | performs Restarted |
| AutomatedReview.Review.ReviewRestart | flow.py:1313-1326 | performs Restarted |
| AutomatedReview.Review.PerformAction | flow.py:1136-1235 | performs Perform on the current dialogue and report |
| AutomatedReview.Review.MessageAction | flow.py:1152-1187 | performs OnMessage, with the restart awaited |
| AutomatedReview.Review.KickUser | flow.py:1188-1202 | performs Kick |
| AutomatedReview.Review.BanUser | flow.py:1203-1228 | performs Ban as corrected |
| AutomatedReview.Review.Carry | flow.py:1157-1163 | performs Carried with the success Discord reports |
| AutomatedReview.Review.ReviewStart | flow.py:1259-1311 | performs StartTyped |
| AutomatedReview.Review.Words | flow.py:1280-1311 | performs StartWords |
| AutomatedReview.Review.HelpCommand | flow.py:1280-1297 | performs Helped |
| AutomatedReview.Review.Command | flow.py:1298-1311 | performs StartCommand |
| AutomatedReview.Review.Confirm | flow.py:1328-1402 | performs ConfirmTyped |
| AutomatedReview.Review.ResolveMessage | flow.py:78-88 | performs Handle, the current state's handler |
| AutomatedReview.Review.Forward | flow.py:61-76 | performs Respond: a cancel keyword enters REVIEW_QUIT, and anything else goes to the current handler |
| AutomatedReview.Review.ForwardMessage | flow.py:61-76 | performs Respond on the stripped message content |
| AutomatedReview.Review.Press | flow.py:1252-1257 | performs Pressed for the button's trigger |
| AutomatedReview.Outcome | flow.py:1157-1228 | a successful call is reported with its success line and a failed one with its problem line; for a ban, exactly the ban's line for the outcome |
| AutomatedReview.Meant | flow.py:1148-1149 | toggle_visibility stands for reveal when the message is hidden and for hide when it is shown; every other action stands for itself |
| AutomatedReview.CommandHelp | flow.py:1282-1297 | help on one of the seven commands gives that command's help (kick gives kick's); on any other name, the "no such command" text naming it, then the command list |
| AutomatedReview.HelpOn | flow.py:1280-1297 | help on a command is always one of the commands' help texts or starts with the "no such command" text |
| AutomatedReview.Handle | flow.py:78-88 | from REVIEW_START or REVIEW_RESTART a reply can at most hide or reveal, and REVIEW_RESTART returns to the menu; a reviewer who does not hold the report changes nothing about it and asks Discord for nothing; coherence is kept |
| AutomatedReview.Respond | flow.py:61-75 | a cancel keyword from the reviewer holding the report unassigns them and enters REVIEW_QUIT; someone else's reply changes nothing about the report and asks Discord for nothing; coherence is kept |
| AutomatedReview.Pressed | flow.py:1241-1257 | a simulated reply from a button made in another state does nothing; a button opening a confirmation moderates nothing; a reviewer who does not hold the report changes nothing about it and asks Discord for nothing |
| CsamReview.Viewer | flow.py:1018-1026 | the image comes first, as a spoilered upload under its own name, followed by the command text and the four buttons 🚼 🔞 🚫 ✅ |
| CsamReview.Reported | flow.py:1039-1068 | a report that is no longer being handled is left alone and nothing is said; otherwise NCMEC is notified, the posts are deleted, the image's hash is saved and the report is resolved |
| CsamReview.ReportActs | flow.py:1045-1068 | the NCMEC report comes first and the confirmation last |
| CsamReview.Removals | flow.py:1048-1063 | the flagged message is deleted exactly when the bot may delete it, the bot's re-post exactly when one exists and is still there, and nothing is reported or saved along the way |
| CsamReview.AdultAsked | flow.py:1070-1080 | the comments prompt changes nothing and only speaks, and only while the report is being handled |
| CsamReview.Settled | flow.py:1103-1109 | resolving resolves a report being handled and thanks the moderator; any other report is left alone |
| CsamReview.Quitting | flow.py:1111-1117 | quitting unassigns the moderator from a report being handled and says so; any other report is left alone |
| CsamReview.AdultAnswered | flow.py:1081-1101 | done files the adult-content report without comments, and any other reply files it with the reply as comments; as written, unassign raises AttributeError on the never-set comments before anything is filed or resolved, while corrected, unassign unassigns; a report no longer being handled is left alone |
| CsamReview.Transition | flow.py:122-128 | the state becomes s with the snapshot kept; entering START, VIEWING_IMAGE or IS_ADULT changes nothing else and only speaks |
| CsamReview.StartTyped | flow.py:994-1007 | after the help check, yes shows the image, and no or unassign enters QUIT; nothing else touches the report or the hash list, and nothing but speech happens |
| CsamReview.Command | flow.py:1028-1037 | exactly ncmec, adult, resolve and unassign are commands, and they lead to REPORTING, IS_ADULT, RESOLVING and QUIT |
| CsamReview.ViewingTyped | flow.py:1016-1037 | a command enters its state (as written, without awaiting the transition, so nothing happens); anything else changes nothing and only speaks |
| CsamReview.ActsOnlyWhilePending | flow.py:1039-1117 | whatever is typed on a report that is no longer being handled, the report, the comments and the hash list are unchanged, and the dialogue only speaks |
| CsamReview.ButtonsActOnlyWhilePending | flow.py:1018-1026 | the same holds for every button of the dialogue |
| CsamReview.ReportedOnce | flow.py:1039-1068 | 🚼 reports the image to NCMEC, saves its hash and resolves the report, and pressing it again does nothing at all |
| CsamReview.TypedCommandsAsWritten | flow.py:1028-1035 | as written, a command typed while the image is shown leaves everything unchanged; corrected, it enters the command's state |
| CsamReview.AdultUnassignAsWritten | flow.py:1082-1101 | as written, unassign typed at the comments prompt raises AttributeError, because the dialogue never set its comments, so the report is neither filed, resolved nor unassigned; corrected, it only unassigns |
| CsamReview.CancelUnassigns | flow.py:1111-1117 | a cancel keyword on a report being handled unassigns the moderator, says so and rests in QUIT |
| CsamReview.CoherenceKept | flow.py:994-1117 | whatever is typed, a coherent report stays coherent |
| CsamReview.ButtonsKeepCoherence | flow.py:1018-1026 | whatever button is pressed, a coherent report stays coherent |
| CsamReview.ImageReview.constructor | flow.py:988-991 | the dialogue starts in START, with QUIT as its quit state, over the given report and the bot's hash list |
| CsamReview.ImageReview.TransitionToState | flow.py:122-128 | performs Transition and keeps the file recording every hash saved since start-up |
| CsamReview.ImageReview.Reporting | flow.py:1039-1068 | performs Reported |
| CsamReview.ImageReview.NotifyNcmec | flow.py:1045-1068 | on a report being handled, resolves it, appends the image's hash to the list and records the report's actions |
| CsamReview.ImageReview.Announce | flow.py:1045-1068 | the report is resolved, the channel gains exactly the report's actions, and the dialogue state is unchanged |
| CsamReview.ImageReview.StoreHash | content_reviewer.py:149-162 | the hash is appended to the list, and the file keeps recording every hash saved since start-up |
| CsamReview.ImageReview.RemovePosts | flow.py:1048-1063 | the channel gains exactly the removals, and the dialogue state is unchanged |
| CsamReview.ImageReview.IsAdultIntro | flow.py:1070-1080 | performs AdultAsked |
| CsamReview.ImageReview.IsAdult | flow.py:1081-1101 | performs AdultAnswered, with the transition on unassign awaited |
| CsamReview.ImageReview.Resolving | flow.py:1103-1109 | performs Settled |
| CsamReview.ImageReview.Quit | flow.py:1111-1117 | performs Quitting |
| CsamReview.ImageReview.Start | flow.py:994-1007 | performs StartTyped |
| CsamReview.ImageReview.ViewingImage | flow.py:1016-1037 | performs ViewingTyped, with the command's transition awaited |
| CsamReview.ImageReview.ResolveMessage | flow.py:78-88 | performs Handle |
| CsamReview.ImageReview.Forward | flow.py:61-76 | performs Respond |
| CsamReview.ImageReview.ForwardMessage | flow.py:61-76 | performs Respond on the stripped content |
| CsamReview.ImageReview.Press | flow.py:1022-1025 | performs Pressed |
| CsamReview.Filed | flow.py:1088-1101 | the adult-content report is filed as sexual content, not urgent, with the given comments, and the CSAM report is resolved; the dialogue state and the hash list are kept, and nothing is reported to NCMEC or saved |
| CsamReview.Handle | flow.py:78-88 | on a report no longer being handled, a reply changes neither the report, the comments nor the hash list and only speaks; in START a reply either keeps the claim or is the transition to QUIT |
| CsamReview.Respond | flow.py:61-75 | a cancel keyword on a report being handled unassigns the moderator and enters QUIT; on a report no longer being handled, nothing but speech happens |
| CsamReview.Pressed | flow.py:1018-1026 | a simulated reply from a button made in another state does nothing, and so do the action and report buttons; on a report no longer being handled, nothing but speech happens |
| ContentReviewer.DistanceIsAMetricOnZero | content_reviewer.py:140 | two hashes are zero bits apart exactly when they are equal, and the bit difference is symmetric |
| ContentReviewer.FirstNear | content_reviewer.py:139-147 | the search finds a position exactly when some listed hash is within six bits; that position holds such a hash, and every hash before it is further away |
| ContentReviewer.ComparedKeepsListDistinct | content_reviewer.py:139-145 | corrected, comparing keeps the list free of duplicates, adds nothing when the same hash is compared again, and adds only a near-duplicate of a listed hash, at the end |
| ContentReviewer.ComparedDiffersOnlyOnRepeats | content_reviewer.py:139-145 | the corrected comparison differs from the code as written exactly when the hash is close, already listed, and not itself the first close hash |
| ContentReviewer.NearDuplicateSavedTwiceAsWritten | content_reviewer.py:141-144 | as written, a hash one bit away from the listed hash 0, compared twice, is listed twice; corrected, it is listed once |
| ContentReviewer.HexLine | content_reviewer.py:160 | the saved line is the hexadecimal hash (36 digits or more) followed by exactly one newline, its only one |
| ContentReviewer.SavedHashReadsBack | content_reviewer.py:45-51 | once a hash's line is appended to a hash file that ends with a newline (or is empty), loading the file gives the old hashes followed by the new one |
| ContentReviewer.OneLine | content_reviewer.py:50 | a text whose only newline is its last character is read as exactly one line |
| ContentReviewer.Reviewed | content_reviewer.py:83-121 | review_images produces one entry per attachment, in order; a non-image gets the zero scores; an image gets its classifier scores and a hash verdict; the hash list only grows at its end |
| ContentReviewer.ReviewedStep | content_reviewer.py:85-120 | reviewing one more attachment appends its own entry and list update to those of the ones before |
| ContentReviewer.ReviewedOne | content_reviewer.py:86-120 | a non-image is skipped with zero scores and leaves the list alone; an image's entry holds its scores and whether its hash is near the list as it stood before it |
| ContentReviewer.NonImagesBreakTheCandidateTest | content_reviewer.py:86-89 | a non-image's entry lacks CSAM_HASH, so the bot's candidate test raises KeyError on it |
| ContentReviewer.Reviewer.constructor | content_reviewer.py:45-51 | at start-up the list is what the hash file loads as |
| ContentReviewer.Reviewer.HashCompare | content_reviewer.py:130-147 | the result is true exactly when a listed hash is within six bits; the list becomes Compared of the old list, and the file gains the lines of the added hashes |
| ContentReviewer.Reviewer.Search | content_reviewer.py:139-147 | the loop finds a match exactly when some listed hash is within six bits |
| ContentReviewer.Reviewer.SaveHash | content_reviewer.py:149-162 | the hash is appended to the list and its line to the file, so the file stays the start-up file followed by the lines of every hash saved since (which loads back as the list when the start-up file ends with a newline) |
| ContentReviewer.Reviewer.ReviewOne | content_reviewer.py:86-120 | produces ReviewedOne's entry and list, and the file gains the added lines |
| ContentReviewer.Reviewer.ReviewImages | content_reviewer.py:83-121 | the entries and the new list are those of Reviewed, and the file gains exactly the lines of the added hashes |
| ContentReviewer.Reviewer.ReviewNext | content_reviewer.py:85-120 | one turn of the loop extends the entries and the list from attachment i to attachment i + 1 |
| ContentReviewer.Distance | content_reviewer.py:140 | the bit difference of two hashes is zero exactly when they are equal |
| ContentReviewer.ComparedAsWritten | content_reviewer.py:139-145 | as written, comparing keeps the list and adds at most the new hash, at the end and only when it is within six bits of a listed one; a close hash not yet listed is always added |
| ContentReviewer.Compared | content_reviewer.py:139-145 | corrected, comparing keeps the list and adds the new hash at its end exactly when it is close to a listed hash and not listed itself, so a close hash is always listed afterwards |
| ContentReviewer.Lines | content_reviewer.py:48-50 | iterating over a file gives no line exactly for the empty file, never an empty line, and every line but the last ends with its newline |
| ContentReviewer.Load | content_reviewer.py:45-51 | the empty file loads as no hashes, and a file that loads gives one hash per line |
| ContentReviewer.SavedHashesReadBack | content_reviewer.py:45-51 | when the start-up file ends with a newline (or is empty), the file still does after any number of saves, and loads as the start-up hashes followed by the saved ones |
| ContentReviewer.UnterminatedFileMergesNextHash | content_reviewer.py:45-160 | when the start-up file's last line has no newline, the next save is written onto that line, so the next start-up does not read back the list the bot had in memory |
| Bot.DmRouting | bot.py:185-226 | the bot's own messages are ignored; a smart-spoiler command sets the switch (toggle flips it, enable and disable set it) before anything else; otherwise a user with open dialogues talks to the newest one; otherwise exactly report opens a new one, and anything else gets the hint |
| Bot.SpoilerCommandsIgnoreDialogues | bot.py:199-210 | the spoiler commands act the same whatever dialogues are open, and toggling twice restores the setting |
| Bot.EditRouting | bot.py:95-136 | an edit outside a server, of a vanished message, by the bot or with blank content is ignored; a message an edit-warning dialogue already watches is handed to it; otherwise a new dialogue is opened exactly when the edit cascade flags the text, and that cascade has no spam rule |
| Bot.HashScan | bot.py:261 | the scan reports whether any entry's hash matched; it raises KeyError only when some entry has no hash, and never when every entry has one |
| Bot.Candidates | bot.py:286 | the CSAM candidates are exactly the indices of the entries scoring above 0.73 or matching a hash, listed in increasing order |
| Bot.HitIsCandidate | bot.py:286 | a hash match always makes at least one candidate |
| Bot.CandidatesAsWritten | bot.py:286 | as written, the selection raises exactly when some entry's candidate test raises, and otherwise gives the candidates |
| Bot.CsamStage | bot.py:283-296 | a hash match always finishes the handler at this stage; when the stage does not finish the handler, it has done nothing |
| Bot.ImageStage | bot.py:241-296 | when the image half does not finish the handler, nothing has happened yet and the text is screened next |
| Bot.ChannelPlanIsOrderly | bot.py:231-378 | whatever the message, the handler deletes it at most once and opens at most one warning dialogue; corrected, and with the permission to delete, no exception escapes it |
| Bot.TextOnlyMessage | bot.py:299-327 | with the permission to delete, a message without attachments is screened by its text alone: a flagged text is deleted and its author warned, an uncertain one gets 🆘, a blank one nothing |
| Bot.NonImageFirstRaises | bot.py:261 | as written, a message whose first attachment is not an image makes the handler raise KeyError before anything else happens; corrected, the same message is screened without an exception |
| Bot.HashMatchFacts | bot.py:261-286 | a single image that matches a hash is a hit and the only candidate, and the first action deletes its message |
| Bot.HashMatchDeletedTwice | bot.py:344-349 | as written, a hash match is deleted, filed with NCMEC, then deleted again by mark_as_csam, which raises NotFound |
| Bot.HashMatchDeletedOnce | bot.py:333-352 | corrected, the same message is deleted once and filed with NCMEC |
| Bot.MaxScores | bot.py:262-266 | the loop computes the highest gore, adult and racy scores over the entries, 0 for none |
| Bot.ModBot.constructor | bot.py:52-62 | the client starts with no dialogues and no watched edits, smart spoilers on, and the hash list read from its file |
| Bot.ModBot.HandleDm | bot.py:185-226 | the route is DmRouting's; only a spoiler command changes the switch, and only a new report registers a dialogue, as the user's only one |
| Bot.ModBot.NotifyUserEdit | bot.py:172-183 | the new dialogue watches the message and is appended to the author's dialogues |
| Bot.ModBot.HandleEdit | bot.py:95-136 | the route is EditRouting's; a new dialogue is registered and watches the message exactly when the edit is flagged, and otherwise nothing changes |
| Bot.ModBot.HandleChannelMessage | bot.py:231-331 | the effects are the corrected ChannelPlan on the reviewed entries; the hash list changes only for a screened message from someone else with attachments; at most one deletion and one warning; a warning registers the author's new dialogue |
| Bot.ModBot.ReviewIfScreened | bot.py:239-243 | the attachments are reviewed, and close hashes saved, only for a screened message from someone else; the entries are Reviewed's |
| Bot.TryDelete | bot.py:277-280 | deleting appends at most one effect; the message counts as deleted afterwards exactly when it already was or the bot may delete it; the handler stops exactly on NotFound (already deleted) or on a Forbidden it does not catch; the deletion itself happens exactly when the message was there and the bot may delete it |
| Bot.Confirm | bot.py:384-398 | confirm_user_message always appends; it stops exactly when outside a DM the message is already gone or may not be deleted; otherwise its last effect is the warning and, outside a DM, the message is deleted |
| Bot.MarkOne | bot.py:336-362 | one candidate appends first its filing, with NCMEC for a hash match and as a review report for any other, and after it only a deletion or the NotFound of one; it stops exactly when a hash match tries to delete a message already deleted; the message is taken as gone afterwards exactly when it was or the candidate matched a hash |
| Bot.MarkOneAdded | bot.py:336-362 | one candidate's effects hold exactly one filing, its own, and no dummy warning |
| Bot.MarkEach | bot.py:336-362 | the loop over the candidates only appends and sends no dummy warning; what it files is always the candidates' filings in candidate order up to where it stopped, and all of them when it runs through; the message is taken as gone afterwards exactly when it was or some candidate matched a hash; taken as gone from the start, nothing stops it and nothing is deleted; with the permission, and the message taken as gone once deleted, it runs through |
| Bot.MarkAsCsam | bot.py:333-378 | mark_as_csam only appends; unless an exception ends it, it files every candidate in order, with NCMEC for a hash match and as a review report otherwise; the dummy warning goes out exactly when a warning is to be shown, no candidate matched a hash (nor, corrected, was the message already deleted), and its deletion outside a DM succeeds; without a warning to show it never stops and deletes nothing; corrected and with the permission it never stops |
| Bot.DummyWarning | bot.py:364-378 | the dummy warning files nothing; it stops exactly when outside a DM the message is already gone or may not be deleted, and is sent exactly when it does not stop |
| Bot.FirstAction | bot.py:259-280 | a hash match deletes the message when allowed, swallowing Forbidden, and never stops the handler; otherwise a flagged image opens a warning, stopping exactly when outside a DM the message may not be deleted; otherwise nothing happens |
| Bot.TextStage | bot.py:299-378 | the text half only appends; when it adds an effect and goes on, the last one is the warning for a flagged non-blank text and otherwise the 🆘; it adds exactly the 🆘 when the text is not flagged and either the message has attachments or the text is in the uncertain band |
| Bot.ChannelPlanFilesEveryCandidate | bot.py:283-292 | corrected and with the permission, screening a message files exactly the filings of its CSAM candidates, in attachment order, so every candidate is filed with NCMEC (hash match) or as a review report |
| Bot.ImageStageFilesEveryCandidate | bot.py:241-296 | corrected and with the permission, the image half files exactly its candidates' filings, and leaves the text to be screened only when there is no candidate |
| Bot.CsamStageFilesEveryCandidate | bot.py:283-296 | corrected and with the permission, after a first action that filed nothing, the CSAM stage files exactly the candidates' filings, and does not finish the handler only when there is no candidate |
| Bot.FirstActionFilesNothing | bot.py:259-280 | neither the deletion of a hash match nor the warning about a flagged image files anything |
| Bot.TextStageFilesNothing | bot.py:299-331 | screening the text files nothing |
| Bot.TryDeleteFilesNothing | bot.py:277-280 | deleting the message files nothing |
| Bot.ConfirmFilesNothing | bot.py:384-398 | opening a warning files nothing |
| Bot.ChannelPlan | bot.py:231-378 | a message outside the group channel gets nothing; the bot's own message gets only the 🆘 when it has attachments; a blank message from someone else without attachments gets nothing |
| Bot.CountsSnoc | bot.py:231-378 | one more effect raises the deletion count when it is a deletion and the warning count when it is a warning, and the handler has failed once it is an exception |
| Bot.TryDeleteCounts | bot.py:277-280 | a deletion keeps the deletion count in step with the deleted flag, sends no warning, and, with the permission on a message still there, neither stops nor fails |
| Bot.ConfirmCounts | bot.py:384-398 | confirm_user_message keeps the deletion count in step, sends at most one warning, and with the permission on a message still there does not fail |
| Bot.MarkOneCounts | bot.py:333-351 | one candidate keeps the deletion count in step and sends no warning; with the permission, and the message taken as gone once deleted, it neither stops nor fails |
| Bot.MarkEachCounts | bot.py:333-351 | the candidate loop keeps the deletion count in step and sends no warning; with the permission, and the message taken as gone once deleted, it neither stops nor fails |
| Bot.MarkAsCsamCounts | bot.py:331-369 | mark_as_csam keeps the deletion count in step and sends at most the one dummy warning, only when it is to show one; corrected and with the permission it does not fail |
| Bot.FirstActionCounts | bot.py:259-280 | the first action deletes at most once, in step with the deleted flag, warns only for a flagged image, and with the permission neither stops nor fails |
| Bot.CsamStageCounts | bot.py:283-296 | the CSAM stage keeps the deletion count in step and adds a warning only when one is to be shown; corrected and with the permission it does not fail |
| Bot.AfterFirstActionCounts | bot.py:259-296 | after the first action and the CSAM stage the message is deleted at most once and warned about at most once; corrected and with the permission nothing fails |
| Bot.ImageStageCounts | bot.py:241-296 | the image half deletes at most once and warns at most once; corrected and with the permission nothing fails |
| Bot.TextStageCounts | bot.py:299-378 | the text half deletes at most once and warns at most once, and with the permission nothing fails |
| LegacyReport.EntriesRank | report.py:15-21 | every abuse-entry state is the third step of the dialogue |
| LegacyReport.DedentOne | report.py:75 | a one-text reply is sent as that text, dedented |
| LegacyReport.HelpMsg | report.py:26-37 | the help text is the reply exactly when the stripped, lower-cased message is a help keyword |
| LegacyReport.LinkAnswer | report.py:95-194 | a link to a message the client can fetch shows the message's embed and the menu with its seven buttons, and moves to AWAITING_ABUSE_TYPE; help, an unreadable link, a link into DMs, and an unknown guild, channel or message each leave the state as it was |
| LegacyReport.AbuseAnswer | report.py:197-257 | the first entry, in menu order, that the stripped answer selects by its number or by one of its words decides the next state, with the emergency warning for entries 4 to 7; help repeats the help; anything else is not understood and changes nothing |
| LegacyReport.Handle | report.py:55-75 | a cancel keyword completes the report from any state; otherwise the state's handler answers; the dialogue never moves back; only a cancel reaches REPORT_COMPLETE; a message in REPORT_COMPLETE that is not a cancel raises TypeError, since report_complete takes no message |
| LegacyReport.WordingShaped | report.py:150-257 | the menu has one keycap, acknowledgement and keyword group per entry, and none of its keywords is a single character |
| LegacyReport.LongWords | report.py:206-245 | every keyword in the abuse groups is longer than one character |
| LegacyReport.NumberIsNoKeyword | report.py:206-245 | a menu number is held by no cancel or help keyword and by no keyword group |
| LegacyReport.TypedNumberSelects | report.py:206-252 | typing a menu number while the menu is up selects that entry |
| LegacyReport.ButtonsAgreeWithNumbers | report.py:159-252 | with the click corrected, each button shows its keycap and leads to the state its number leads to, and both carry the emergency warning exactly for entries 4 to 7 |
| LegacyReport.MenuButtonsGoStale | report.py:289-293 | once an answer has moved the dialogue on from the menu, the menu's buttons do nothing |
| LegacyReport.LinkAnswerFound | report.py:99-194 | a message that is not a keyword and that links to a fetchable message moves the dialogue to the menu |
| LegacyReport.PastedLinkFindsMessage | report.py:99-194 | pasting a message link of digits for a fetchable message shows that message second and is followed by seven buttons, all frozen in AWAITING_ABUSE_TYPE |
| LegacyReport.LinkIsNoKeyword | report.py:62-65 | a message link is neither a cancel keyword nor a help keyword |
| LegacyReport.MenuReply | report.py:141-194 | the reply to a found message has ten items: the message's preview second, then the seven buttons |
| LegacyReport.HelpKeepsState | report.py:26-37 | help in the link or menu state repeats that state's help and changes nothing; in REPORT_START, which has no help, it starts the report |
| LegacyReport.Report.constructor | report.py:50-53 | the dialogue starts in REPORT_START over the given client |
| LegacyReport.Report.TransToState | report.py:288-308 | corrected, the handler sends its dedented messages and moves to the target when clicked in the state it was made in, and does nothing in any other state |
| LegacyReport.Report.HandleMessage | report.py:55-75 | the reply and the new state are those Handle gives; on an exception the state is unchanged |
| LegacyReport.Report.ReportStart | report.py:85-92 | the state becomes AWAITING_MESSAGE_LINK and the greeting is returned |
| LegacyReport.Report.AwaitingMessageLink | report.py:95-194 | the state and reply are LinkAnswer's, with the buttons made once the state has moved on |
| LegacyReport.Report.MakeButtons | report.py:159-193 | the seven keycap buttons, each made in the current state |
| LegacyReport.Report.AwaitingAbuseType | report.py:197-257 | the state and reply are AbuseAnswer's |
| LegacyReport.Report.Click | report.py:290-308 | the sent messages and new state are those the corrected Clicked gives |
| LegacyReport.Clicked | report.py:290-307 | corrected (with the event's reaction passed as `reaction`), a handler fired in another state does nothing; fired in its own state it moves to its target and sends each of its messages dedented, in order |
| LegacyReport.Buttons | report.py:159-193 | the menu has seven buttons, button k showing keycap k+1 and, made in the current state, leading to entry k |
| LegacyReport.MenuClickRaisesAsWritten | report.py:290-302 | as written, a click on any live menu button raises AttributeError (its `reaction` is the client), so the dialogue stays on the menu; typing the same number, or the corrected click, moves it to the entry |
| LegacyReport.Report.ReportComplete | report.py:283-284 | report_complete holds exactly when the dialogue is in its last state, REPORT_COMPLETE |
| Parsing.DigitRunFacts | report.py:102 | the run read for a digit group is all digits and ends at a non-digit or at the end of the text |
| Parsing.MatchEnds | report.py:102 | where the pattern matches, it is a slash, a guild group that is digits or @me, a slash, a channel group of digits, a slash and a message group of digits |
| Parsing.SearchFrom | report.py:102 | the search returns the leftmost position at which the pattern matches, with that match's groups; none means no position matches |
| Parsing.GuildOfMatch | report.py:102 | the guild group of a match is a non-empty digit string or @me |
| Parsing.ChannelOfMatch | report.py:102 | the channel group of a match is a non-empty digit string |
| Parsing.MessageOfMatch | report.py:102 | the message group of a match is a non-empty digit string |
| Parsing.MatchInText | report.py:102 | a match stands in the text as slash, guild, slash, channel, slash, message |
| Parsing.LinkRoundTrip | report.py:102 | reading the ids back out of a Copy Message Link link gives exactly the ids it was made of |
| Parsing.NoSlashNoLink | report.py:102-108 | a text without a slash holds no link |
| Parsing.ResolveLink | report.py:102-137 | the link is unreadable exactly when the pattern finds nothing, and points into DMs exactly when its guild is @me; a found message is the one the directory holds under the link's guild, channel and message ids |
| Parsing.LinkFound | report.py:110-140 | a pasted link to a message the client can fetch resolves to that message |
| Parsing.NamesWord | report.py:203-206 | a one-word answer in lower case names a group exactly when the group holds that word |
| Parsing.FirstSelected | report.py:206-252 | the chosen entry is the first, in menu order, that the answer selects by number or keyword; none means that no entry is selected |
| Parsing.NumberSelects | report.py:206-252 | a menu number selects its own entry when no earlier group names it |

## Left out

- Discord transport is not performed: sending, editing, deleting, fetching, reactions, guild, member and ban lookups, and kicks and bans. Each is an event in the channel log, and Discord's answers (found, permitted, succeeded) are parameters.
- Only NotFound is modelled when a message is fetched. Forbidden and HTTP errors from `fetch_message` are not.
- asyncio scheduling and concurrency are not modelled. The five-minute `call_later` timeout and the `_second_timer` loop become explicit inputs (a timeout, a tick). An interleaving is modelled as a sequence of inputs. Tasks started without `await` are modelled as not run before the handler returns.
- The classifiers are external services or numeric code: Perspective, Azure computer vision, the Keras CSAM model, cv2 and imagehash's `dhash`. Their scores are `real` inputs and the image hash is an opaque natural number. Thresholds are compared on reals, not IEEE floats.
- The timer message edit failing is not modelled. Its handler at flow.py:401 names `discord.errorsNotFound`, which does not exist, so a failed edit would raise AttributeError.
- Not modelled: embeds, colours, avatars, the `time.strftime` footers, the timer's colour bands, jump URLs, and the layout of `reportPreview` beyond its value formatting. The time shown in the "already resolved" warning is a string parameter.
- Smart spoilers: the code-block regex rewriting (flow.py:282-296) is not modelled. Only the final escaping of double bars and the wrapping in spoiler bars are.
- SOSFlow (flow.py:492-530) and the 🆘 reaction handler `on_raw_reaction_add` (bot.py:138-170) are not part of this model. The 🆘 the handler puts on a message (bot.py:326, 331) and the one `resend_message` puts on the re-post (flow.py:322) are recorded as effects; what a 🆘 sets off afterwards is not modelled.
- Not modelled: `on_ready`'s group-number parsing and mod-channel discovery, token loading, `client.run`, `on_disconnect`, and content_reviewer.py's `__main__` scanner. classifier-code/build.py is not part of this model.
- AutomatedReport, UserReport and CSAMImageReport are not part of this model. `Claims.Report` stands in for them with the status, the assignee, visibility, deletion, `resolve` and `unassign`. Report mirrors and posting to the mod channels are events.
- The bans a guild returns are modelled as a list of ban entries, each with its reason and its user's id. Nothing else about the banned users is modelled.
- `FILTER_DMS` is off in the source, so the screening of direct messages it would switch on is not modelled.
- ContentReviewer.Reviewer.constructor (and Bot.ModBot.constructor, which builds it) requires every line of the hash file to parse, because a malformed line makes `ContentReviewer()` raise ValueError at start-up. A file whose last line has no newline is accepted; UnterminatedFileMergesNextHash states what the next save does to it.
- SentWarningFlow.SentWarning.constructor: the model builds the warning only once its urgency is known. In the code, `Flow.__init__` schedules the introduction with `create_task` (flow.py:53-58) before the urgency lookup can raise KeyError (flow.py:207-216), so a warning that fails still greets the user. That greeting is not modelled, and `SentBad` states only the failure.
- SentWarningFlow.Repost: the re-sent files come from `attachment.to_file` (flow.py:270-273), and any download that fails is dropped silently. The model re-sends every attachment.
- The adult-content report that the CSAM review files is built by `report.UserReport`, which is not part of this model. It is assumed to read the `comments` the dialogue sets, as it does for the report dialogue (flow.py:896). AdultAnswered's AttributeError on unassign rests on that assumption.
- `int(s, 16)` is modelled on hexadecimal digits only. Signs, underscores and a 0x prefix are not accepted.
- `str.lower()` folds only ASCII letters in the model. `\d` matches only ASCII digits in the model, both in the link pattern and in the discriminator pattern `#\d+$` of Helpers.DiscriminatorAt (helpers.py:78). Python's `\d` also matches other Unicode digits.
- The dialogues' long texts are held in a `Wording` record, bound once in a constant and passed to the step functions as a parameter.
- `findUsers` returns a set, so the order of several matches is unspecified in Python. The model returns them in the guild's member order, and its contracts speak only of which members match.
- In the CSAM review, the re-post and its prefix message are deleted together as one event. A NotFound that stops the prefix's deletion is not modelled separately.
- In report.py, `START_KEYWORDS = ("report")` is a plain string. It is never read, and the bot does not use report.py's `Report` class at all.
- report.py in REPORT_COMPLETE calls `report_complete`, which takes no message, so a reply raises TypeError. `LegacyReport.Handle` models this as an error.
- The "Not Implemented" entry states of report.py answer that text and stay put; nothing more is modelled.
- AutomatedReview.KeywordHasAWord: states only that every help and cancel keyword splits into at least one word, not that it is exactly one word, which is all the proof of WordlessReplyRaises needs.

## Findings

| source | as written | input that shows it | evidently intended | confidence | as-written member | corrected member |
|---|---|---|---|---|---|---|
| flow.py:66-68 | a cancel typed while already in the quit state overwrites the snapshot with the quit state | cancel, then cancel again, then no | the snapshot keeps the state from before the first cancel, so revert returns there | not executed | FlowEngine.CancelTwiceLosesSnapshot | FlowEngine.SoundSnapshotKept |
| helpers.py:78-81 | the name is cut by the length of the normalised discriminator | "bob#0042" searches for the name "bob#0" | the name is cut at the '#', so "bob#0042" finds bob with discriminator 42; the correction keeps the `str(int(...))` normalisation, so a member whose discriminator is stored as the string "0042" is still not matched (discriminators are arbitrary strings compared after that normalisation) | not executed | Helpers.FindUsersMissesPaddedTag | Helpers.FindUsersFixedByTag |
| flow.py:777-811 | the victim search gives up at the first shared guild without a match | the victim is a member of the second shared guild only | every shared guild is searched before reporting not found | not executed | UserReportFlow.VictimSearchStopsEarly | UserReportFlow.SearchGuilds |
| flow.py:233-260 | the ✅ button stays live after the warning is settled | reply yes, then press ✅ | a settled warning ignores its buttons | not executed | SentWarningFlow.TypedYesThenButtonRepostsTwice | SentWarningFlow.RepostsAtMostOnce |
| flow.py:448-455 | `edited` calls `eval_text`, and `resend` calls `allow_user_message`, but the client defines neither | any edit of a watched message | the edit is scored with the text classifier and the message is re-posted | not executed | EditWarningFlow.AsWrittenEditsAndResendsFail | EditWarningFlow.Editing |
| flow.py:482-487 | `close` does not stop the countdown | an acceptable edit one second before expiry | closing the dialogue stops its timer | not executed | EditWarningFlow.CloseLeavesCountdownRunning | EditWarningFlow.AcceptedEditIsKept |
| flow.py:457-468 | `still_bad` checks neither sexual explicitness nor flirtation | an edit scoring 0.95 for sexual explicitness and nothing else | an edit flagged by the same rules as a new message stays bad | not executed | EditWarningFlow.StillBadMissesExplicitEdits | EditWarningFlow.StillBad |
| bot.py:261 | the image entries are read for CSAM_HASH, which non-image entries lack | a message whose first attachment is a text file | non-images are skipped by the hash and candidate tests | not executed | Bot.NonImageFirstRaises | Bot.ChannelPlanIsOrderly |
| bot.py:344-349 | `mark_as_csam` deletes a message that the hash branch already deleted | one image matching a listed hash | the message is deleted once | not executed | Bot.HashMatchDeletedTwice | Bot.HashMatchDeletedOnce |
| flow.py:1219 | both ban checks (here and at flow.py:1387) read `.id` of a ban entry, which holds the user rather than being one, and this one also reads `self.message`, which the review dialogue does not have | confirming a ban in a guild that has banned anyone | each entry's user is compared with the reported message's author | not executed | AutomatedReview.BanListAsWritten | AutomatedReview.Ban |
| flow.py:1176-1181 | the return to the menu is started without `await` when the message is already deleted | confirming delete of a deleted message | the dialogue returns to REVIEW_START | not executed | AutomatedReview.DeletedWhileConfirming | AutomatedReview.OnMessage |
| flow.py:1028-1035 | the typed commands start their transition without `await` | "ncmec" typed while the image is shown | the command enters its state | not executed | CsamReview.TypedCommandsAsWritten | CsamReview.ViewingTyped |
| flow.py:1082-1090 | "unassign" at the comments prompt goes on to file the adult-content report, with `comments` never set | "unassign" typed at the comments prompt | unassign only unassigns | not executed | CsamReview.AdultUnassignAsWritten | CsamReview.AdultAnswered |
| content_reviewer.py:141-144 | a near-duplicate hash is appended each time it is seen | the hash 1 compared twice against the list [0] | each hash is listed once | not executed | ContentReviewer.NearDuplicateSavedTwiceAsWritten | ContentReviewer.ComparedKeepsListDistinct |
| report.py:290-302 | `toState` takes `(client, reaction, user)`, but reactions.py:59 calls click handlers as `(config, client, reaction, user)`, so its `reaction` is the client and `reaction.message` is read on the client | clicking keycap 1 while the abuse menu is shown | the click sends the entry's messages and moves to the entry, as typing its number does | not executed | LegacyReport.MenuClickRaisesAsWritten | LegacyReport.ButtonsAgreeWithNumbers |
