/** The ORM records of the backend: one datatype per table row (the
    primary key lives in Table.Row), the column rules of each table, and
    the ReportStatus enumeration. */
module Entities {
  import opened Base

  /** Store-assigned creation time (`func.now()`), an opaque value here. */
  type Timestamp = nat

  const ContentMax := 250
  const UserMax := 50
  const ReasonMax := 250

  // ---- ReportStatus -------------------------------------------------------

  datatype ReportStatus = PENDING | ACCEPTED | REJECTED

  /** The table default of every `status` column. */
  const DefaultStatus := PENDING

  /** `status.name`. */
  function StatusName(s: ReportStatus): string {
    match s
    case PENDING => "PENDING"
    case ACCEPTED => "ACCEPTED"
    case REJECTED => "REJECTED"
  }

  /** `ReportStatus[name]`: lookup by member name; any other name raises
      KeyError, modelled as None. */
  function ParseStatus(name: string): (r: Option<ReportStatus>)
    ensures r.Some? ==> StatusName(r.value) == name
    ensures r.None? ==> forall s :: StatusName(s) != name
  {
    if name == "PENDING" then Some(PENDING)
    else if name == "ACCEPTED" then Some(ACCEPTED)
    else if name == "REJECTED" then Some(REJECTED)
    else None
  }

  /** Rendering a status by name and looking it up again are inverse, so a
      name is accepted exactly when it is the name of some status. */
  lemma ParseStatusInverse(s: ReportStatus, name: string)
    ensures ParseStatus(StatusName(s)) == Some(s)
    ensures ParseStatus(name) == Some(s) <==> StatusName(s) == name
  {
  }

  // ---- Discussion (its own file is not part of this model) ------------------

  /** Only the primary key of a discussion matters to the core. */
  datatype Discussion = Discussion

  // ---- Answer -------------------------------------------------------------

  datatype Answer = Answer(discussionid: int, content: string, timestamp: Timestamp, user: string)

  /** The String(250) and String(50) column bounds of `answers`. */
  predicate AnswerFits(a: Answer) {
    |a.content| <= ContentMax && |a.user| <= UserMax
  }

  // ---- Comment ------------------------------------------------------------

  /** `discussionid` is stored as given: the column has no foreign key. */
  datatype Comment = Comment(discussionid: int, answerid: int, content: string, timestamp: Timestamp, user: string)

  predicate CommentFits(c: Comment) {
    |c.content| <= ContentMax && |c.user| <= UserMax
  }

  // ---- Votes --------------------------------------------------------------

  /** One row per vote; there is no voter column, so nothing is unique. */
  datatype VoteAnswer = VoteAnswer(aid: int)
  datatype VoteComment = VoteComment(cid: int)

  // ---- Reports ------------------------------------------------------------

  /** A discussion report. `tipo` is nullable; by the column's comment 1
      marks a discussion, 2 an answer and 3 a comment. There is no user
      column. */
  datatype Report = Report(reason: string, discussionid: int, tipo: Option<int>, status: ReportStatus, timestamp: Timestamp)

  /** The String(250) bound of `reason`; the tipo convention is a comment
      on the column, not a rule the database enforces. */
  predicate ReportFits(r: Report) {
    |r.reason| <= ReasonMax
  }

  datatype ReportAnswer = ReportAnswer(reason: string, answerid: int, status: ReportStatus, timestamp: Timestamp, user: string)

  predicate ReportAnswerFits(r: ReportAnswer) {
    |r.reason| <= ReasonMax && |r.user| <= UserMax
  }

  datatype ReportComment = ReportComment(reason: string, commentid: int, status: ReportStatus, timestamp: Timestamp, user: string)

  predicate ReportCommentFits(r: ReportComment) {
    |r.reason| <= ReasonMax && |r.user| <= UserMax
  }
}
