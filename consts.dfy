/** The keyword tuples every dialogue compares its (stripped, lower-cased) input against, and the
    two enumerations the reports branch on. */
module Consts {

  const HELP_KEYWORDS: seq<string> := ["help", "?"]
  const CANCEL_KEYWORDS: seq<string> := ["cancel", "quit", "exit"]
  /** A one-element tuple: membership is equality with "report". */
  const START_KEYWORDS: seq<string> := ["report"]
  const YES_KEYWORDS: seq<string> := ["yes", "y", "yeah", "yup", "sure"]
  const NO_KEYWORDS: seq<string> := ["no", "n", "nah", "naw", "nope"]

  /** The eight kinds of abuse a report can name. */
  datatype AbuseType = SPAM | HATEFUL | SEXUAL | HARASS | BULLYING | HARMFUL | VIOLENCE | CSAM
  {
    /** The display string the enum member carries as its value. */
    function Value(): string {
      match this
      case SPAM => "Misinformation or Spam"
      case HATEFUL => "Hateful Content"
      case SEXUAL => "Sexual Content"
      case HARASS => "Harassment"
      case BULLYING => "Bullying"
      case HARMFUL => "Harmful/Dangerous Content"
      case VIOLENCE => "Promoting Violence or Terrorism"
      case CSAM => "Child Abuse"
    }
  }

  /** The members of AbuseType in declaration order. */
  const ALL_ABUSE_TYPES: seq<AbuseType> :=
    [SPAM, HATEFUL, SEXUAL, HARASS, BULLYING, HARMFUL, VIOLENCE, CSAM]

  datatype ReportStatus = NEW | PENDING | RESOLVED

  const ALL_REPORT_STATUSES: seq<ReportStatus> := [NEW, PENDING, RESOLVED]

  predicate Disjoint(xs: seq<string>, ys: seq<string>) {
    forall x :: x in xs ==> x !in ys
  }

  /** No answer is both a yes and a no. */
  lemma YesNoDisjoint()
    ensures Disjoint(YES_KEYWORDS, NO_KEYWORDS)
  {
  }

  /** Help, cancel, yes and no keywords are pairwise disjoint, so intercepting help or cancel never
      swallows a yes/no answer. */
  lemma KeywordSetsDisjoint()
    ensures Disjoint(HELP_KEYWORDS, CANCEL_KEYWORDS)
    ensures Disjoint(HELP_KEYWORDS, YES_KEYWORDS) && Disjoint(HELP_KEYWORDS, NO_KEYWORDS)
    ensures Disjoint(CANCEL_KEYWORDS, YES_KEYWORDS) && Disjoint(CANCEL_KEYWORDS, NO_KEYWORDS)
    ensures Disjoint(YES_KEYWORDS, NO_KEYWORDS)
  {
  }

  /** A one-character answer is never a cancel keyword, and asks for help only when it is "?". */
  lemma OneLetterKeywords(w: string)
    requires |w| == 1
    ensures w !in CANCEL_KEYWORDS
    ensures w in HELP_KEYWORDS <==> w == "?"
  {
  }

  /** Membership in START_KEYWORDS is exact equality with "report". */
  lemma StartKeywordIsExact(s: string)
    ensures s in START_KEYWORDS <==> s == "report"
  {
  }

  /** AbuseType has exactly eight members, and their display strings are distinct. */
  lemma AbuseTypesEnumerated(a: AbuseType)
    ensures |ALL_ABUSE_TYPES| == 8 && a in ALL_ABUSE_TYPES
    ensures forall i, j :: 0 <= i < j < 8 ==> ALL_ABUSE_TYPES[i] != ALL_ABUSE_TYPES[j]
    ensures forall b: AbuseType :: a.Value() == b.Value() ==> a == b
  {
  }

  /** ReportStatus has exactly NEW, PENDING and RESOLVED. */
  lemma ReportStatusesEnumerated(s: ReportStatus)
    ensures s in ALL_REPORT_STATUSES && |ALL_REPORT_STATUSES| == 3
  {
  }
}
