/** The thresholds the bot applies to the classifiers' scores: which new or edited message is
    flagged, for what, and how strongly; which one only earns an 🆘 reaction; and which images
    are flagged. The classifiers themselves are outside the model: their scores are inputs. */
module Scores {
  import opened Wrappers
  import opened Consts

  /** The eight text attributes requested from the text classifier, each a probability. */
  datatype TextScores = TextScores(
    severeToxicity: real,
    identityAttack: real,
    insult: real,
    threat: real,
    toxicity: real,
    spam: real,
    sexuallyExplicit: real,
    flirtation: real)

  /** Why a message is flagged: whether it is hidden behind a spoiler when re-posted, the kind of
      abuse a report names, and the phrase completing "Your message was flagged ...". */
  datatype Verdict = Verdict(explicit: bool, abuse: AbuseType, explanation: string)

  /** Some attribute is high enough for the explicit (spoilered) tier. */
  predicate ExplicitTier(s: TextScores) {
    s.sexuallyExplicit > 0.9 || s.severeToxicity > 0.9 || s.threat > 0.9 || s.identityAttack > 0.9
  }

  /** Some attribute is high enough to flag a new message. */
  predicate Flagged(s: TextScores) {
    s.sexuallyExplicit > 0.75 || s.severeToxicity > 0.9 || s.threat > 0.75 || s.identityAttack > 0.75
    || s.toxicity > 0.9 || s.insult > 0.9 || s.flirtation > 0.8 || s.spam > 0.9
  }

  /** The cascade a new channel message goes through: the first rule that fires decides. */
  function TextVerdict(s: TextScores): (v: Option<Verdict>)
    ensures v.Some? <==> Flagged(s)
    ensures v.Some? ==> (v.value.explicit <==> ExplicitTier(s))
    ensures v.Some? ==> v.value.abuse in {SEXUAL, HARASS, VIOLENCE, HATEFUL, SPAM}
    ensures v.Some? && v.value.abuse == SPAM ==> s.spam > 0.9 && !Flagged(s.(spam := 0.0))
  {
    if s.sexuallyExplicit > 0.9 then Some(Verdict(true, SEXUAL, "as sexually explicit"))
    else if s.severeToxicity > 0.9 then Some(Verdict(true, HARASS, "as toxic"))
    else if s.threat > 0.9 then Some(Verdict(true, VIOLENCE, "as threatening"))
    else if s.identityAttack > 0.9 then Some(Verdict(true, HATEFUL, "as hateful"))
    else if s.sexuallyExplicit > 0.75 then Some(Verdict(false, SEXUAL, "as sexually explicit"))
    else if s.threat > 0.75 then Some(Verdict(false, VIOLENCE, "for inciting violence"))
    else if s.identityAttack > 0.75 then Some(Verdict(false, HATEFUL, "as hateful"))
    else if s.toxicity > 0.9 || s.insult > 0.9 then Some(Verdict(false, HARASS, "as toxic"))
    else if s.flirtation > 0.8 then Some(Verdict(false, HARASS, "as flirtation"))
    else if s.spam > 0.9 then Some(Verdict(false, SPAM, "as spam"))
    else None
  }

  /** The cascade an edited message goes through: the same rules in the same order, without the
      spam rule. */
  function EditVerdict(s: TextScores): (v: Option<Verdict>)
    ensures v == if TextVerdict(s).Some? && TextVerdict(s).value.abuse == SPAM then None else TextVerdict(s)
  {
    if s.sexuallyExplicit > 0.9 then Some(Verdict(true, SEXUAL, "as sexually explicit"))
    else if s.severeToxicity > 0.9 then Some(Verdict(true, HARASS, "as toxic"))
    else if s.threat > 0.9 then Some(Verdict(true, VIOLENCE, "as threatening"))
    else if s.identityAttack > 0.9 then Some(Verdict(true, HATEFUL, "as hateful"))
    else if s.sexuallyExplicit > 0.75 then Some(Verdict(false, SEXUAL, "as sexually explicit"))
    else if s.threat > 0.75 then Some(Verdict(false, VIOLENCE, "for inciting violence"))
    else if s.identityAttack > 0.75 then Some(Verdict(false, HATEFUL, "as hateful"))
    else if s.toxicity > 0.9 || s.insult > 0.9 then Some(Verdict(false, HARASS, "as toxic"))
    else if s.flirtation > 0.8 then Some(Verdict(false, HARASS, "as flirtation"))
    else None
  }

  /** The band in which an unflagged message is only marked with 🆘 for other users to report. */
  function SosBand(s: TextScores): (b: bool)
    ensures Flagged(s) ==> b
    ensures b ==> s.sexuallyExplicit > 0.65 || s.severeToxicity > 0.65 || s.threat > 0.65 || s.identityAttack > 0.65
                  || s.toxicity > 0.65 || s.insult > 0.7 || s.flirtation > 0.65 || s.spam > 0.75
  {
    s.sexuallyExplicit > 0.65 || s.severeToxicity > 0.65 || s.threat > 0.65 || s.identityAttack > 0.65
    || s.toxicity > 0.65 || s.insult > 0.7 || s.flirtation > 0.65 || s.spam > 0.75
  }

  /** Raising any score never un-flags a message nor lowers it out of the explicit tier. */
  lemma FlaggingIsMonotone(s: TextScores, u: TextScores)
    requires s.severeToxicity <= u.severeToxicity && s.identityAttack <= u.identityAttack
    requires s.insult <= u.insult && s.threat <= u.threat && s.toxicity <= u.toxicity
    requires s.spam <= u.spam && s.sexuallyExplicit <= u.sexuallyExplicit && s.flirtation <= u.flirtation
    ensures TextVerdict(s).Some? ==> TextVerdict(u).Some?
    ensures TextVerdict(s).Some? && TextVerdict(s).value.explicit ==> TextVerdict(u).value.explicit
    ensures SosBand(s) ==> SosBand(u)
  {
  }

  /** What the image reviewer reports for one attachment. `csamHash` is absent for a non-image
      attachment, which gets zero scores and no hash entry. */
  datatype ImageScores = ImageScores(gore: real, adult: real, racy: real, csam: real, csamHash: Option<bool>)

  /** The scores of an attachment that has no height, that is, is not an image. */
  const NON_IMAGE := ImageScores(0.0, 0.0, 0.0, 0.0, None)

  /** The largest of the scores, or 0 when there are none (`max_scores.get(key, 0)`). */
  function Peak(xs: seq<real>): (m: real)
    ensures 0.0 <= m
    ensures forall i :: 0 <= i < |xs| ==> xs[i] <= m
    ensures m == 0.0 || m in xs
  {
    if xs == [] then 0.0
    else
      var p := Peak(xs[..|xs| - 1]);
      var x := xs[|xs| - 1];
      assert forall i :: 0 <= i < |xs| - 1 ==> xs[i] == xs[..|xs| - 1][i];
      if x > p then x else p
  }

  /** The peak exceeds a positive threshold exactly when some score does. */
  lemma PeakAbove(xs: seq<real>, t: real)
    requires t >= 0.0
    ensures Peak(xs) > t <==> exists i :: 0 <= i < |xs| && xs[i] > t
  {
    if Peak(xs) > t {
      var m := Peak(xs);
      var i :| 0 <= i < |xs| && xs[i] == m;
    }
  }

  function Gores(list: seq<ImageScores>): seq<real> {
    seq(|list|, i requires 0 <= i < |list| => list[i].gore)
  }

  function Adults(list: seq<ImageScores>): seq<real> {
    seq(|list|, i requires 0 <= i < |list| => list[i].adult)
  }

  function Racies(list: seq<ImageScores>): seq<real> {
    seq(|list|, i requires 0 <= i < |list| => list[i].racy)
  }

  function Csams(list: seq<ImageScores>): seq<real> {
    seq(|list|, i requires 0 <= i < |list| => list[i].csam)
  }

  /** The image cascade, on the highest score of each kind across the attachments. */
  function ImageVerdict(gore: real, adult: real, racy: real): (v: Option<Verdict>)
    ensures v.Some? <==> adult > 0.85 || gore > 0.75 || racy > 0.8
    ensures v.Some? ==> v.value.explicit
    ensures v.Some? ==> (v.value.abuse == VIOLENCE <==> adult <= 0.85 && gore > 0.75)
  {
    if adult > 0.85 then Some(Verdict(true, SEXUAL, "for having a sexually explicit image"))
    else if gore > 0.75 then Some(Verdict(true, VIOLENCE, "as promoting violence for having a bloody/gory image"))
    else if racy > 0.8 then Some(Verdict(true, SEXUAL, "as having a sexually suggestive image"))
    else None
  }

  /** A message's images are flagged exactly when one of its attachments crosses a threshold. */
  lemma ImagesFlaggedByOne(list: seq<ImageScores>)
    ensures ImageVerdict(Peak(Gores(list)), Peak(Adults(list)), Peak(Racies(list))).Some?
            <==> exists i :: 0 <= i < |list| && (list[i].adult > 0.85 || list[i].gore > 0.75 || list[i].racy > 0.8)
  {
    PeakAbove(Gores(list), 0.75);
    PeakAbove(Adults(list), 0.85);
    PeakAbove(Racies(list), 0.8);
    if exists i :: 0 <= i < |list| && (list[i].adult > 0.85 || list[i].gore > 0.75 || list[i].racy > 0.8) {
      var i :| 0 <= i < |list| && (list[i].adult > 0.85 || list[i].gore > 0.75 || list[i].racy > 0.8);
      assert Adults(list)[i] == list[i].adult && Gores(list)[i] == list[i].gore && Racies(list)[i] == list[i].racy;
    }
  }

  /** An attachment is a CSAM candidate when the model's score passes 0.73 or its hash matched a
      listed one; a non-image's missing hash entry is consulted whenever its score does not pass. */
  function CsamCandidate(a: ImageScores): (r: Result<bool, string>)
    ensures r.Err? <==> a.csam <= 0.73 && a.csamHash.None?
    ensures r.Ok? ==> (r.value <==> a.csam > 0.73 || a.csamHash == Some(true))
  {
    if a.csam > 0.73 then Ok(true)
    else if a.csamHash.None? then Err("KeyError")
    else Ok(a.csamHash.value)
  }
}
