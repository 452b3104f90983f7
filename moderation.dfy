/** Moderation use cases (`reportsServices` in service/moderateservices.py):
    listing and creating reports against discussions, answers and
    comments, looking a report up, and resolving it. `ReportLogic` and
    `DiscussionLogic` are direct pass-throughs to the store. */
module Moderation {
  import opened Base
  import opened Table
  import opened Entities
  import opened Schema

  // ---- Records returned to callers ------------------------------------------

  /** A discussion report as listed and as looked up: status by name. */
  datatype ReportView = ReportView(id: int, discussionid: int, reason: string, timestamp: Timestamp, status: string)

  datatype ReportAnswerView = ReportAnswerView(id: int, answerid: int, reason: string, timestamp: Timestamp, status: string, user: string)

  datatype ReportCommentView = ReportCommentView(id: int, commentid: int, reason: string, timestamp: Timestamp, status: string, user: string)

  /** What `create_report` returns for the stored report. */
  datatype CreatedReport = CreatedReport(id: int, reason: string, tipo: Option<int>, timestamp: Timestamp, discussionid: int, status: string)

  datatype CreatedReportAnswer = CreatedReportAnswer(id: int, reason: string, answerid: int, status: string, user: string)

  datatype CreatedReportComment = CreatedReportComment(id: int, reason: string, commentid: int, status: string, user: string)

  function ViewReport(x: Row<Report>): ReportView {
    ReportView(x.id, x.val.discussionid, x.val.reason, x.val.timestamp, StatusName(x.val.status))
  }

  function ViewReportAnswer(x: Row<ReportAnswer>): ReportAnswerView {
    ReportAnswerView(x.id, x.val.answerid, x.val.reason, x.val.timestamp, StatusName(x.val.status), x.val.user)
  }

  function ViewReportComment(x: Row<ReportComment>): ReportCommentView {
    ReportCommentView(x.id, x.val.commentid, x.val.reason, x.val.timestamp, StatusName(x.val.status), x.val.user)
  }

  // ---- get_report_by_id -------------------------------------------------------

  /** `get_report_by_id`, reading the columns a report has: absent (the
      empty dictionary) exactly when no report has that key, otherwise the
      report stored under it. */
  function GetReportById(reports: seq<Row<Report>>, id: int): (r: Option<ReportView>)
    ensures r.None? <==> id !in Keys(reports)
    ensures r.Some? ==> exists x :: x in reports && x.id == id && r.value == ViewReport(x)
  {
    match Find(reports, id)
    case None => None
    case Some(x) => Some(ViewReport(x))
  }

  /** `get_report_by_id` as written: a missing report gives the empty
      dictionary, and a present one fails on `report.title`, an attribute
      a report does not have. No report is ever returned. */
  function GetReportByIdAsWritten(reports: seq<Row<Report>>, id: int): (r: Result<Option<ReportView>>)
    ensures r.Ok? <==> id !in Keys(reports)
    ensures r.Ok? ==> r.value.None?
    ensures r.Err? ==> r.error == AttributeError("title")
  {
    match Find(reports, id)
    case None => Ok(None)
    case Some(_) => Err(AttributeError("title"))
  }

  // ---- Listings ---------------------------------------------------------------

  /** `list_reports`, reading the columns a report has: one entry per stored
      report, in table order, with its status rendered by name. */
  method ListReports(db: Database) returns (out: seq<ReportView>)
    ensures |out| == |db.reports|
    ensures forall i :: 0 <= i < |out| ==> out[i] == ViewReport(db.reports[i])
    ensures forall i :: 0 <= i < |out| ==> ParseStatus(out[i].status) == Some(db.reports[i].val.status)
  {
    out := [];
    var i := 0;
    while i < |db.reports|
      invariant 0 <= i <= |db.reports|
      invariant |out| == i
      invariant forall k :: 0 <= k < i ==> out[k] == ViewReport(db.reports[k])
    {
      var x := db.reports[i];
      out := out + [ReportView(x.id, x.val.discussionid, x.val.reason, x.val.timestamp, StatusName(x.val.status))];
      i := i + 1;
    }
    forall k | 0 <= k < |out| ensures ParseStatus(out[k].status) == Some(db.reports[k].val.status) {
      ParseStatusInverse(db.reports[k].val.status, out[k].status);
    }
  }

  /** `list_reports` as written: each entry reads `report.user`, a column
      the reports table does not have, so the listing fails as soon as there
      is one report. */
  function ListReportsAsWritten(reports: seq<Row<Report>>): (r: Result<seq<ReportView>>)
    ensures r.Ok? <==> reports == []
    ensures r.Ok? ==> r.value == []
    ensures r.Err? ==> r.error == AttributeError("user")
  {
    if reports == [] then Ok([]) else Err(AttributeError("user"))
  }

  /** `list_reports_answer`: one entry per answer report, in table order. */
  method ListReportsAnswer(db: Database) returns (out: seq<ReportAnswerView>)
    ensures |out| == |db.reportAnswers|
    ensures forall i :: 0 <= i < |out| ==> out[i] == ViewReportAnswer(db.reportAnswers[i])
    ensures forall i :: 0 <= i < |out| ==> ParseStatus(out[i].status) == Some(db.reportAnswers[i].val.status)
  {
    out := [];
    var i := 0;
    while i < |db.reportAnswers|
      invariant 0 <= i <= |db.reportAnswers|
      invariant |out| == i
      invariant forall k :: 0 <= k < i ==> out[k] == ViewReportAnswer(db.reportAnswers[k])
    {
      var x := db.reportAnswers[i];
      out := out + [ReportAnswerView(x.id, x.val.answerid, x.val.reason, x.val.timestamp, StatusName(x.val.status), x.val.user)];
      i := i + 1;
    }
    forall k | 0 <= k < |out| ensures ParseStatus(out[k].status) == Some(db.reportAnswers[k].val.status) {
      ParseStatusInverse(db.reportAnswers[k].val.status, out[k].status);
    }
  }

  /** `list_reports_comments`: one entry per comment report, in table order. */
  method ListReportsComments(db: Database) returns (out: seq<ReportCommentView>)
    ensures |out| == |db.reportComments|
    ensures forall i :: 0 <= i < |out| ==> out[i] == ViewReportComment(db.reportComments[i])
    ensures forall i :: 0 <= i < |out| ==> ParseStatus(out[i].status) == Some(db.reportComments[i].val.status)
  {
    out := [];
    var i := 0;
    while i < |db.reportComments|
      invariant 0 <= i <= |db.reportComments|
      invariant |out| == i
      invariant forall k :: 0 <= k < i ==> out[k] == ViewReportComment(db.reportComments[k])
    {
      var x := db.reportComments[i];
      out := out + [ReportCommentView(x.id, x.val.commentid, x.val.reason, x.val.timestamp, StatusName(x.val.status), x.val.user)];
      i := i + 1;
    }
    forall k | 0 <= k < |out| ensures ParseStatus(out[k].status) == Some(db.reportComments[k].val.status) {
      ParseStatusInverse(db.reportComments[k].val.status, out[k].status);
    }
  }

  // ---- Creating reports -------------------------------------------------------

  /** `create_report`, returning the columns a report has: stores a PENDING
      report against discussion d and returns it; an insert error reaches
      the caller and stores nothing. */
  method CreateReport(db: Database, d: int, reason: string, now: Timestamp) returns (r: Result<CreatedReport>)
    requires db.Valid()
    modifies db`reports
    ensures db.Valid()
    ensures r.Ok? <==> |reason| <= ReasonMax && d in Keys(db.discussions)
    ensures r.Ok? ==>
      && r.value == CreatedReport(NextId(old(db.reports)), reason, None, now, d, "PENDING")
      && db.reports == Insert(old(db.reports), Report(reason, d, None, DefaultStatus, now))
    ensures r.Err? ==> db.reports == old(db.reports)
    ensures r.Err? ==> r.error == if |reason| <= ReasonMax then IntegrityError else DataError
  {
    var stored := db.InsertReport(Report(reason, d, None, DefaultStatus, now));
    if stored.Err? {
      return Err(stored.error);
    }
    var x := stored.value;
    r := Ok(CreatedReport(x.id, x.val.reason, x.val.tipo, x.val.timestamp, x.val.discussionid, StatusName(x.val.status)));
  }

  /** `create_report` as written: the report is stored, and then reading
      `new_report.user` fails, so the caller gets an error although the
      report stays in the table. */
  method CreateReportAsWritten(db: Database, d: int, reason: string, now: Timestamp) returns (r: Result<CreatedReport>)
    requires db.Valid()
    modifies db`reports
    ensures db.Valid()
    ensures r.Err?
    ensures |reason| <= ReasonMax && d in Keys(db.discussions) ==>
      && r.error == AttributeError("user")
      && db.reports == Insert(old(db.reports), Report(reason, d, None, DefaultStatus, now))
    ensures !(|reason| <= ReasonMax && d in Keys(db.discussions)) ==> db.reports == old(db.reports)
  {
    var stored := db.InsertReport(Report(reason, d, None, DefaultStatus, now));
    if stored.Err? {
      return Err(stored.error);
    }
    r := Err(AttributeError("user"));
  }

  /** `create_report_answer`, returning the columns an answer report has.
      The reporting user comes from the logic layer. */
  method CreateReportAnswer(db: Database, a: int, reason: string, user: string, now: Timestamp) returns (r: Result<CreatedReportAnswer>)
    requires db.Valid()
    modifies db`reportAnswers
    ensures db.Valid()
    ensures r.Ok? <==> ReportAnswerFits(ReportAnswer(reason, a, DefaultStatus, now, user)) && a in Keys(db.answers)
    ensures r.Ok? ==>
      && r.value == CreatedReportAnswer(NextId(old(db.reportAnswers)), reason, a, "PENDING", user)
      && db.reportAnswers == Insert(old(db.reportAnswers), ReportAnswer(reason, a, DefaultStatus, now, user))
    ensures r.Err? ==> db.reportAnswers == old(db.reportAnswers)
    ensures r.Err? ==> r.error == if ReportAnswerFits(ReportAnswer(reason, a, DefaultStatus, now, user)) then IntegrityError else DataError
  {
    var stored := db.InsertReportAnswer(ReportAnswer(reason, a, DefaultStatus, now, user));
    if stored.Err? {
      return Err(stored.error);
    }
    var x := stored.value;
    r := Ok(CreatedReportAnswer(x.id, x.val.reason, x.val.answerid, StatusName(x.val.status), x.val.user));
  }

  /** `create_report_answer` as written: stored, then `new_report.tipo`
      fails, since answer reports have no tipo column. */
  method CreateReportAnswerAsWritten(db: Database, a: int, reason: string, user: string, now: Timestamp) returns (r: Result<CreatedReportAnswer>)
    requires db.Valid()
    modifies db`reportAnswers
    ensures db.Valid()
    ensures r.Err?
    ensures ReportAnswerFits(ReportAnswer(reason, a, DefaultStatus, now, user)) && a in Keys(db.answers) ==>
      && r.error == AttributeError("tipo")
      && db.reportAnswers == Insert(old(db.reportAnswers), ReportAnswer(reason, a, DefaultStatus, now, user))
    ensures !(ReportAnswerFits(ReportAnswer(reason, a, DefaultStatus, now, user)) && a in Keys(db.answers)) ==> db.reportAnswers == old(db.reportAnswers)
  {
    var stored := db.InsertReportAnswer(ReportAnswer(reason, a, DefaultStatus, now, user));
    if stored.Err? {
      return Err(stored.error);
    }
    r := Err(AttributeError("tipo"));
  }

  /** `create_report_comment`, returning the columns a comment report has.
      The reporting user comes from the logic layer. */
  method CreateReportComment(db: Database, c: int, reason: string, user: string, now: Timestamp) returns (r: Result<CreatedReportComment>)
    requires db.Valid()
    modifies db`reportComments
    ensures db.Valid()
    ensures r.Ok? <==> ReportCommentFits(ReportComment(reason, c, DefaultStatus, now, user)) && c in Keys(db.comments)
    ensures r.Ok? ==>
      && r.value == CreatedReportComment(NextId(old(db.reportComments)), reason, c, "PENDING", user)
      && db.reportComments == Insert(old(db.reportComments), ReportComment(reason, c, DefaultStatus, now, user))
    ensures r.Err? ==> db.reportComments == old(db.reportComments)
    ensures r.Err? ==> r.error == if ReportCommentFits(ReportComment(reason, c, DefaultStatus, now, user)) then IntegrityError else DataError
  {
    var stored := db.InsertReportComment(ReportComment(reason, c, DefaultStatus, now, user));
    if stored.Err? {
      return Err(stored.error);
    }
    var x := stored.value;
    r := Ok(CreatedReportComment(x.id, x.val.reason, x.val.commentid, StatusName(x.val.status), x.val.user));
  }

  /** `create_report_comment` as written: stored, then `new_report.tipo`
      fails, since comment reports have no tipo column. */
  method CreateReportCommentAsWritten(db: Database, c: int, reason: string, user: string, now: Timestamp) returns (r: Result<CreatedReportComment>)
    requires db.Valid()
    modifies db`reportComments
    ensures db.Valid()
    ensures r.Err?
    ensures ReportCommentFits(ReportComment(reason, c, DefaultStatus, now, user)) && c in Keys(db.comments) ==>
      && r.error == AttributeError("tipo")
      && db.reportComments == Insert(old(db.reportComments), ReportComment(reason, c, DefaultStatus, now, user))
    ensures !(ReportCommentFits(ReportComment(reason, c, DefaultStatus, now, user)) && c in Keys(db.comments)) ==> db.reportComments == old(db.reportComments)
  {
    var stored := db.InsertReportComment(ReportComment(reason, c, DefaultStatus, now, user));
    if stored.Err? {
      return Err(stored.error);
    }
    r := Err(AttributeError("tipo"));
  }

  // ---- Resolving a report -----------------------------------------------------

  /** `update_report_status` as intended: looks the status up by name
      (KeyError for an unknown name) and the report by key (a missing one
      fails on the status assignment), stores the new status whatever it
      is, and on ACCEPTED removes the discussion the report names together
      with everything that depends on it. There is no check of the current
      status: a resolved report can be set again. */
  method UpdateReportStatus(db: Database, id: int, name: string) returns (r: Result<()>)
    requires db.Valid()
    modifies db
    ensures db.Valid()
    ensures r.Ok? <==> ParseStatus(name).Some? && id in Keys(old(db.reports))
    ensures r.Err? ==> db.State() == old(db.State())
    ensures r.Err? ==> r.error == if ParseStatus(name).None? then KeyError(name) else AttributeError("status")
    ensures r.Ok? ==> db.State() == Resolve(old(db.State()), id, ParseStatus(name).value)
  {
    var found := Find(db.reports, id);
    var status := ParseStatus(name);
    if status.None? {
      return Err(KeyError(name));
    }
    if found.None? {
      return Err(AttributeError("status"));
    }
    db.SetReportStatus(id, status.value);
    if name == "ACCEPTED" {
      db.RemoveDiscussion(found.value.val.discussionid);
    }
    r := Ok(());
  }

  /** `update_report_status` as written. It has no modifies clause: nothing
      it does reaches the store. An unknown name raises KeyError and a
      missing report AttributeError; on ACCEPTED, `schema. reporte.id`
      raises AttributeError before the commit; any other status is assigned
      but never committed. */
  method UpdateReportStatusAsWritten(db: Database, id: int, name: string) returns (r: Result<()>)
    ensures ParseStatus(name).None? ==> r == Err(KeyError(name))
    ensures ParseStatus(name).Some? && id !in Keys(db.reports) ==> r == Err(AttributeError("status"))
    ensures ParseStatus(name).Some? && id in Keys(db.reports) ==>
      (r.Ok? <==> name != "ACCEPTED") && (r.Err? ==> r.error == AttributeError("reporte"))
  {
    var found := Find(db.reports, id);
    var status := ParseStatus(name);
    if status.None? {
      return Err(KeyError(name));
    }
    if found.None? {
      return Err(AttributeError("status"));
    }
    if name == "ACCEPTED" {
      return Err(AttributeError("reporte"));
    }
    r := Ok(());
  }

  /** `quitar_discusion` as written: it fetches the discussion and adds it
      back to the session. It has no modifies clause: nothing is deleted.
      A missing discussion is None, which the session refuses. */
  method QuitarDiscusionAsWritten(db: Database, id: int) returns (r: Result<()>)
    ensures r.Ok? <==> id in Keys(db.discussions)
    ensures r.Err? ==> r.error == UnmappedInstanceError
  {
    var discussion := Find(db.discussions, id);
    if discussion.None? {
      return Err(UnmappedInstanceError);
    }
    r := Ok(());
  }
}
