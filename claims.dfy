/** The part of a moderation report the review dialogues read and change: its status, the moderator
    it is assigned to, and whether the reported message is hidden or deleted. The report classes
    themselves are not part of this model; `Report` is a stub holding only those fields, with the
    calls the dialogues make on it. */
module Claims {
  import opened Wrappers
  import opened Consts
  import opened Reactions

  datatype Claim = Claim(status: ReportStatus, assignee: Option<UserId>, hidden: bool, deleted: bool)

  /** A report is new exactly when nobody is assigned to it. */
  predicate Coherent(c: Claim) {
    c.status == NEW <==> c.assignee.None?
  }

  /** Only the assignee of a report being handled may act on it. */
  predicate HeldBy(c: Claim, user: UserId) {
    c.status == PENDING && c.assignee == Some(user)
  }

  /** A moderator takes the report. */
  function Assigned(c: Claim, user: UserId): (d: Claim)
    ensures HeldBy(d, user) && Coherent(d)
    ensures d.hidden == c.hidden && d.deleted == c.deleted
  {
    c.(status := PENDING, assignee := Some(user))
  }

  /** `report.resolve()`: the report is closed; it keeps the moderator who resolved it. */
  function Resolved(c: Claim): (d: Claim)
    ensures d.status == RESOLVED && d.assignee == c.assignee
    ensures c.status != NEW && Coherent(c) ==> Coherent(d)
    ensures d.hidden == c.hidden && d.deleted == c.deleted
  {
    c.(status := RESOLVED)
  }

  /** `report.unassign()`: the report is back in the queue, with nobody assigned. */
  function Unassigned(c: Claim): (d: Claim)
    ensures d.status == NEW && d.assignee.None? && Coherent(d)
    ensures d.hidden == c.hidden && d.deleted == c.deleted
  {
    c.(status := NEW, assignee := None)
  }

  /** What a moderation call leaves behind when it succeeds: `hide_message` hides the message,
      `reveal_message` shows it, `delete_message` deletes it; kicking and banning change nothing
      on the report, and a failed call changes nothing. */
  function Moderated(c: Claim, action: string, ok: bool): (d: Claim)
    ensures d.status == c.status && d.assignee == c.assignee
    ensures ok && action == "hide" ==> d.hidden
    ensures ok && action == "reveal" ==> !d.hidden
    ensures ok && action == "delete" ==> d.deleted
    ensures d != c ==> ok && action in ["hide", "reveal", "delete"]
  {
    if !ok then c
    else if action == "hide" then c.(hidden := true)
    else if action == "reveal" then c.(hidden := false)
    else if action == "delete" then c.(deleted := true)
    else c
  }

  /** The report stub. */
  class Report {
    var status: ReportStatus
    var assignee: Option<UserId>
    var hidden: bool
    var deleted: bool

    /** A report enters the queue unassigned. */
    constructor (hidden: bool, deleted: bool)
      ensures Snapshot() == Claim(NEW, None, hidden, deleted) && Coherent(Snapshot())
    {
      status, assignee := NEW, None;
      this.hidden, this.deleted := hidden, deleted;
    }

    function Snapshot(): Claim
      reads this
    {
      Claim(status, assignee, hidden, deleted)
    }

    method Assign(user: UserId)
      modifies this
      ensures Snapshot() == Assigned(old(Snapshot()), user)
    {
      status, assignee := PENDING, Some(user);
    }

    method Resolve()
      modifies this
      ensures Snapshot() == Resolved(old(Snapshot()))
    {
      status := RESOLVED;
    }

    method Unassign()
      modifies this
      ensures Snapshot() == Unassigned(old(Snapshot()))
    {
      status, assignee := NEW, None;
    }

    /** `hide_message()`, `reveal_message()`, `delete_message()`, `kick_user()` or `ban_user()`:
        whether Discord carried it out is an input, and is what the call returns. */
    method Moderate(action: string, ok: bool) returns (done: bool)
      modifies this
      ensures done == ok && Snapshot() == Moderated(old(Snapshot()), action, ok)
    {
      done := ok;
      if ok {
        if action == "hide" {
          hidden := true;
        } else if action == "reveal" {
          hidden := false;
        } else if action == "delete" {
          deleted := true;
        }
      }
    }
  }
}
