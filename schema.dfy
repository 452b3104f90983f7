/** The entity store: the eight tables of the backend, the column and
    foreign-key rules that the database enforces on them, and the store
    operations the services rely on (insert, status update, and the
    removal of a discussion with everything that depends on it). */
module Schema {
  import opened Base
  import opened Table
  import opened Entities

  /** A snapshot of every table. */
  datatype Tables = Tables(
    discussions: seq<Row<Discussion>>,
    answers: seq<Row<Answer>>,
    comments: seq<Row<Comment>>,
    voteAnswers: seq<Row<VoteAnswer>>,
    voteComments: seq<Row<VoteComment>>,
    reports: seq<Row<Report>>,
    reportAnswers: seq<Row<ReportAnswer>>,
    reportComments: seq<Row<ReportComment>>)

  // ---- Table rules ----------------------------------------------------------

  /** answers: column bounds and discussionid -> discussions.id. */
  ghost predicate AnswersOk(answers: seq<Row<Answer>>, discussions: seq<Row<Discussion>>) {
    forall r :: r in answers ==> AnswerFits(r.val) && r.val.discussionid in Keys(discussions)
  }

  /** comments: column bounds and answerid -> answers.id (discussionid is
      unconstrained). */
  ghost predicate CommentsOk(comments: seq<Row<Comment>>, answers: seq<Row<Answer>>) {
    forall r :: r in comments ==> CommentFits(r.val) && r.val.answerid in Keys(answers)
  }

  /** voteanswers: aid -> answers.id. */
  ghost predicate VoteAnswersOk(votes: seq<Row<VoteAnswer>>, answers: seq<Row<Answer>>) {
    forall r :: r in votes ==> r.val.aid in Keys(answers)
  }

  /** votecomments: cid -> comments.id. */
  ghost predicate VoteCommentsOk(votes: seq<Row<VoteComment>>, comments: seq<Row<Comment>>) {
    forall r :: r in votes ==> r.val.cid in Keys(comments)
  }

  /** reports: reason bound and discussionid -> discussions.id. */
  ghost predicate ReportsOk(reports: seq<Row<Report>>, discussions: seq<Row<Discussion>>) {
    forall r :: r in reports ==> ReportFits(r.val) && r.val.discussionid in Keys(discussions)
  }

  /** reportsanswer: column bounds and answerid -> answers.id. */
  ghost predicate ReportAnswersOk(reports: seq<Row<ReportAnswer>>, answers: seq<Row<Answer>>) {
    forall r :: r in reports ==> ReportAnswerFits(r.val) && r.val.answerid in Keys(answers)
  }

  /** reportscomment: column bounds and commentid -> comments.id. */
  ghost predicate ReportCommentsOk(reports: seq<Row<ReportComment>>, comments: seq<Row<Comment>>) {
    forall r :: r in reports ==> ReportCommentFits(r.val) && r.val.commentid in Keys(comments)
  }

  ghost predicate KeysOk(s: Tables) {
    && WellKeyed(s.discussions) && WellKeyed(s.answers) && WellKeyed(s.comments)
    && WellKeyed(s.voteAnswers) && WellKeyed(s.voteComments)
    && WellKeyed(s.reports) && WellKeyed(s.reportAnswers) && WellKeyed(s.reportComments)
  }

  /** Every rule of every table holds. */
  ghost predicate Consistent(s: Tables) {
    && KeysOk(s)
    && AnswersOk(s.answers, s.discussions)
    && CommentsOk(s.comments, s.answers)
    && VoteAnswersOk(s.voteAnswers, s.answers)
    && VoteCommentsOk(s.voteComments, s.comments)
    && ReportsOk(s.reports, s.discussions)
    && ReportAnswersOk(s.reportAnswers, s.answers)
    && ReportCommentsOk(s.reportComments, s.comments)
  }

  // ---- Status update --------------------------------------------------------

  /** `report.status = st` on the report with key id, then commit. */
  function SetStatus(t: seq<Row<Report>>, id: int, st: ReportStatus): (r: seq<Row<Report>>)
    ensures |r| == |t|
  {
    seq(|t|, i requires 0 <= i < |t| =>
      if t[i].id == id then Row(id, t[i].val.(status := st)) else t[i])
  }

  /** The update keeps every key, so the table stays well keyed. */
  lemma SetStatusKeys(t: seq<Row<Report>>, id: int, st: ReportStatus)
    requires WellKeyed(t)
    ensures WellKeyed(SetStatus(t, id, st))
    ensures Keys(SetStatus(t, id, st)) == Keys(t)
  {
    var r := SetStatus(t, id, st);
    assert forall i :: 0 <= i < |t| ==> r[i].id == t[i].id;
    forall k' ensures k' in Keys(r) <==> k' in Keys(t) {
      if k' in Keys(r) {
        var x :| x in r && x.id == k';
        var i :| 0 <= i < |r| && r[i] == x;
        assert t[i] in t;
      }
      if k' in Keys(t) {
        var x :| x in t && x.id == k';
        var i :| 0 <= i < |t| && t[i] == x;
        assert r[i] in r;
      }
    }
    forall x | x in r ensures x.id >= 1 {
      var i :| 0 <= i < |r| && r[i] == x;
      assert t[i] in t;
    }
  }

  /** After the update, looking a report up by key gives the updated report
      for id and the unchanged report for every other key; keys and every
      other column stay as they were. */
  lemma SetStatusEffect(t: seq<Row<Report>>, id: int, st: ReportStatus, k: int)
    requires WellKeyed(t)
    ensures WellKeyed(SetStatus(t, id, st))
    ensures Keys(SetStatus(t, id, st)) == Keys(t)
    ensures Find(SetStatus(t, id, st), k) ==
      match Find(t, k)
      case None => None
      case Some(x) => Some(if k == id then Row(k, x.val.(status := st)) else x)
  {
    SetStatusKeys(t, id, st);
    var r := SetStatus(t, id, st);
    match Find(t, k)
    case None =>
    case Some(x) =>
      var i :| 0 <= i < |t| && t[i] == x;
      assert r[i] == (if k == id then Row(k, x.val.(status := st)) else x);
      FindUnique(r, r[i]);
  }

  // ---- Removal of a discussion with its dependants ----------------------------

  /** Keys of the answers of discussion d. */
  function GoneAnswers(s: Tables, d: int): set<int> {
    Keys(Filter(s.answers, (a: Row<Answer>) => a.val.discussionid == d))
  }

  /** A comment goes with discussion d when it names d or hangs under one of
      its answers. */
  predicate CommentGone(c: Row<Comment>, d: int, goneAnswers: set<int>) {
    c.val.discussionid == d || c.val.answerid in goneAnswers
  }

  function GoneComments(s: Tables, d: int): set<int> {
    var ga := GoneAnswers(s, d);
    Keys(Filter(s.comments, (c: Row<Comment>) => CommentGone(c, d, ga)))
  }

  /** Removing discussion d and, so that no foreign key dangles, its
      answers, its comments, the votes on and reports against them, and the
      reports against d itself. */
  function Cascade(s: Tables, d: int): Tables {
    var ga := GoneAnswers(s, d);
    var gc := GoneComments(s, d);
    Tables(
      Filter(s.discussions, (x: Row<Discussion>) => x.id != d),
      Filter(s.answers, (a: Row<Answer>) => a.val.discussionid != d),
      Filter(s.comments, (c: Row<Comment>) => !CommentGone(c, d, ga)),
      Filter(s.voteAnswers, (v: Row<VoteAnswer>) => v.val.aid !in ga),
      Filter(s.voteComments, (v: Row<VoteComment>) => v.val.cid !in gc),
      Filter(s.reports, (x: Row<Report>) => x.val.discussionid != d),
      Filter(s.reportAnswers, (x: Row<ReportAnswer>) => x.val.answerid !in ga),
      Filter(s.reportComments, (x: Row<ReportComment>) => x.val.commentid !in gc))
  }

  lemma GoneAnswersMembers(s: Tables, d: int)
    ensures forall a :: a in s.answers && a.val.discussionid == d ==> a.id in GoneAnswers(s, d)
    ensures forall k :: k in GoneAnswers(s, d) ==> exists a :: a in s.answers && a.val.discussionid == d && a.id == k
  {
    var f := Filter(s.answers, (a: Row<Answer>) => a.val.discussionid == d);
    forall a | a in s.answers && a.val.discussionid == d ensures a.id in GoneAnswers(s, d) {
      assert a in f;
    }
  }

  lemma GoneCommentsMembers(s: Tables, d: int)
    ensures forall c :: c in s.comments && CommentGone(c, d, GoneAnswers(s, d)) ==> c.id in GoneComments(s, d)
  {
    var ga := GoneAnswers(s, d);
    var f := Filter(s.comments, (c: Row<Comment>) => CommentGone(c, d, ga));
    forall c | c in s.comments && CommentGone(c, d, ga) ensures c.id in GoneComments(s, d) {
      assert c in f;
    }
  }

  /** A row the query keeps still lends its key to the result. */
  lemma KeptKey<T(!new)>(t: seq<Row<T>>, p: Row<T> -> bool, x: Row<T>)
    requires x in t && p(x)
    ensures x.id in Keys(Filter(t, p))
  {
    assert x in Filter(t, p);
  }

  lemma CascadeAnswersOk(s: Tables, d: int)
    requires AnswersOk(s.answers, s.discussions)
    ensures AnswersOk(Cascade(s, d).answers, Cascade(s, d).discussions)
  {
    var c := Cascade(s, d);
    forall a | a in c.answers ensures AnswerFits(a.val) && a.val.discussionid in Keys(c.discussions) {
      var x :| x in s.discussions && x.id == a.val.discussionid;
      KeptKey(s.discussions, (x: Row<Discussion>) => x.id != d, x);
    }
  }

  lemma CascadeCommentsOk(s: Tables, d: int)
    requires CommentsOk(s.comments, s.answers)
    ensures CommentsOk(Cascade(s, d).comments, Cascade(s, d).answers)
  {
    var c := Cascade(s, d);
    GoneAnswersMembers(s, d);
    forall m | m in c.comments ensures CommentFits(m.val) && m.val.answerid in Keys(c.answers) {
      var x :| x in s.answers && x.id == m.val.answerid;
      KeptKey(s.answers, (a: Row<Answer>) => a.val.discussionid != d, x);
    }
  }

  lemma CascadeVoteAnswersOk(s: Tables, d: int)
    requires VoteAnswersOk(s.voteAnswers, s.answers)
    ensures VoteAnswersOk(Cascade(s, d).voteAnswers, Cascade(s, d).answers)
  {
    var c := Cascade(s, d);
    GoneAnswersMembers(s, d);
    forall v | v in c.voteAnswers ensures v.val.aid in Keys(c.answers) {
      var x :| x in s.answers && x.id == v.val.aid;
      KeptKey(s.answers, (a: Row<Answer>) => a.val.discussionid != d, x);
    }
  }

  lemma CascadeVoteCommentsOk(s: Tables, d: int)
    requires VoteCommentsOk(s.voteComments, s.comments)
    ensures VoteCommentsOk(Cascade(s, d).voteComments, Cascade(s, d).comments)
  {
    var c := Cascade(s, d);
    var ga := GoneAnswers(s, d);
    GoneCommentsMembers(s, d);
    forall v | v in c.voteComments ensures v.val.cid in Keys(c.comments) {
      var x :| x in s.comments && x.id == v.val.cid;
      KeptKey(s.comments, (m: Row<Comment>) => !CommentGone(m, d, ga), x);
    }
  }

  lemma CascadeReportsOk(s: Tables, d: int)
    requires ReportsOk(s.reports, s.discussions)
    ensures ReportsOk(Cascade(s, d).reports, Cascade(s, d).discussions)
  {
    var c := Cascade(s, d);
    forall r | r in c.reports ensures ReportFits(r.val) && r.val.discussionid in Keys(c.discussions) {
      var x :| x in s.discussions && x.id == r.val.discussionid;
      KeptKey(s.discussions, (x: Row<Discussion>) => x.id != d, x);
    }
  }

  lemma CascadeReportAnswersOk(s: Tables, d: int)
    requires ReportAnswersOk(s.reportAnswers, s.answers)
    ensures ReportAnswersOk(Cascade(s, d).reportAnswers, Cascade(s, d).answers)
  {
    var c := Cascade(s, d);
    GoneAnswersMembers(s, d);
    forall r | r in c.reportAnswers ensures ReportAnswerFits(r.val) && r.val.answerid in Keys(c.answers) {
      var x :| x in s.answers && x.id == r.val.answerid;
      KeptKey(s.answers, (a: Row<Answer>) => a.val.discussionid != d, x);
    }
  }

  lemma CascadeReportCommentsOk(s: Tables, d: int)
    requires ReportCommentsOk(s.reportComments, s.comments)
    ensures ReportCommentsOk(Cascade(s, d).reportComments, Cascade(s, d).comments)
  {
    var c := Cascade(s, d);
    var ga := GoneAnswers(s, d);
    GoneCommentsMembers(s, d);
    forall r | r in c.reportComments ensures ReportCommentFits(r.val) && r.val.commentid in Keys(c.comments) {
      var x :| x in s.comments && x.id == r.val.commentid;
      KeptKey(s.comments, (m: Row<Comment>) => !CommentGone(m, d, ga), x);
    }
  }

  lemma CascadeKeysOk(s: Tables, d: int)
    requires KeysOk(s)
    ensures KeysOk(Cascade(s, d))
  {
    var ga := GoneAnswers(s, d);
    var gc := GoneComments(s, d);
    FilterKeepsWellKeyed(s.discussions, (x: Row<Discussion>) => x.id != d);
    FilterKeepsWellKeyed(s.answers, (a: Row<Answer>) => a.val.discussionid != d);
    FilterKeepsWellKeyed(s.comments, (x: Row<Comment>) => !CommentGone(x, d, ga));
    FilterKeepsWellKeyed(s.voteAnswers, (v: Row<VoteAnswer>) => v.val.aid !in ga);
    FilterKeepsWellKeyed(s.voteComments, (v: Row<VoteComment>) => v.val.cid !in gc);
    FilterKeepsWellKeyed(s.reports, (x: Row<Report>) => x.val.discussionid != d);
    FilterKeepsWellKeyed(s.reportAnswers, (x: Row<ReportAnswer>) => x.val.answerid !in ga);
    FilterKeepsWellKeyed(s.reportComments, (x: Row<ReportComment>) => x.val.commentid !in gc);
  }

  /** The removal keeps every table rule: no foreign key is left dangling. */
  lemma CascadeConsistent(s: Tables, d: int)
    requires Consistent(s)
    ensures Consistent(Cascade(s, d))
  {
    CascadeKeysOk(s, d);
    CascadeAnswersOk(s, d);
    CascadeCommentsOk(s, d);
    CascadeVoteAnswersOk(s, d);
    CascadeVoteCommentsOk(s, d);
    CascadeReportsOk(s, d);
    CascadeReportAnswersOk(s, d);
    CascadeReportCommentsOk(s, d);
  }

  /** Comment m names a discussion other than d and hangs under an answer
      of a discussion other than d. */
  ghost predicate ElsewhereComment(m: Row<Comment>, answers: seq<Row<Answer>>, d: int) {
    m.val.discussionid != d && forall a :: a in answers && a.id == m.val.answerid ==> a.val.discussionid != d
  }

  /** After the removal, discussion d, its answers, every comment naming d
      or hanging under one of its answers, and the reports against d are no
      longer in the store. */
  lemma CascadeRemovesDiscussion(s: Tables, d: int)
    ensures d !in Keys(Cascade(s, d).discussions)
    ensures forall a :: a in Cascade(s, d).answers ==> a.val.discussionid != d
    ensures forall m :: m in Cascade(s, d).comments ==> ElsewhereComment(m, s.answers, d)
    ensures forall r :: r in Cascade(s, d).reports ==> r.val.discussionid != d
  {
    GoneAnswersMembers(s, d);
  }

  /** Content of other discussions is untouched: their rows stay, and so
      does every comment that names another discussion and hangs under an
      answer of another discussion. */
  lemma CascadeKeepsOthers(s: Tables, d: int)
    ensures forall x :: x in s.discussions && x.id != d ==> x in Cascade(s, d).discussions
    ensures forall a :: a in s.answers && a.val.discussionid != d ==> a in Cascade(s, d).answers
    ensures forall m :: m in s.comments && ElsewhereComment(m, s.answers, d) ==> m in Cascade(s, d).comments
    ensures forall r :: r in s.reports && r.val.discussionid != d ==> r in Cascade(s, d).reports
  {
    GoneAnswersMembers(s, d);
  }

  /** The votes of comment c: the rows `filter_by(cid=c)`. */
  function CommentVotes(votes: seq<Row<VoteComment>>, c: int): seq<Row<VoteComment>> {
    Filter(votes, (v: Row<VoteComment>) => v.val.cid == c)
  }

  /** A comment that survives the removal keeps every one of its votes. */
  lemma CascadeKeepsCommentVotes(s: Tables, d: int, k: int)
    requires KeysOk(s)
    requires k in Keys(Cascade(s, d).comments)
    ensures CommentVotes(Cascade(s, d).voteComments, k) == CommentVotes(s.voteComments, k)
  {
    var ga := GoneAnswers(s, d);
    var gc := GoneComments(s, d);
    var m :| m in Cascade(s, d).comments && m.id == k;
    if k in gc {
      var f := Filter(s.comments, (c: Row<Comment>) => CommentGone(c, d, ga));
      var m' :| m' in f && m'.id == k;
      FindUnique(s.comments, m);
      FindUnique(s.comments, m');
    }
    FilterNarrow(s.voteComments, (v: Row<VoteComment>) => v.val.cid !in gc, (v: Row<VoteComment>) => v.val.cid == k);
  }

  /** An answer that survives the removal is not among the removed ones. */
  lemma KeptAnswerNotGone(s: Tables, d: int, k: int)
    requires KeysOk(s)
    requires k in Keys(Cascade(s, d).answers)
    ensures k !in GoneAnswers(s, d)
  {
    var a :| a in Cascade(s, d).answers && a.id == k;
    if k in GoneAnswers(s, d) {
      var f := Filter(s.answers, (x: Row<Answer>) => x.val.discussionid == d);
      var a' :| a' in f && a'.id == k;
      FindUnique(s.answers, a);
      FindUnique(s.answers, a');
    }
  }

  /** A comment that survives the removal is not among the removed ones. */
  lemma KeptCommentNotGone(s: Tables, d: int, k: int)
    requires KeysOk(s)
    requires k in Keys(Cascade(s, d).comments)
    ensures k !in GoneComments(s, d)
  {
    var ga := GoneAnswers(s, d);
    var m :| m in Cascade(s, d).comments && m.id == k;
    if k in GoneComments(s, d) {
      var f := Filter(s.comments, (c: Row<Comment>) => CommentGone(c, d, ga));
      var m' :| m' in f && m'.id == k;
      FindUnique(s.comments, m);
      FindUnique(s.comments, m');
    }
  }

  /** Nothing else goes: every vote and report whose answer or comment
      survives the removal survives with it. */
  lemma CascadeKeepsDependants(s: Tables, d: int)
    requires KeysOk(s)
    ensures forall v :: v in s.voteAnswers && v.val.aid in Keys(Cascade(s, d).answers) ==> v in Cascade(s, d).voteAnswers
    ensures forall v :: v in s.voteComments && v.val.cid in Keys(Cascade(s, d).comments) ==> v in Cascade(s, d).voteComments
    ensures forall r :: r in s.reportAnswers && r.val.answerid in Keys(Cascade(s, d).answers) ==> r in Cascade(s, d).reportAnswers
    ensures forall r :: r in s.reportComments && r.val.commentid in Keys(Cascade(s, d).comments) ==> r in Cascade(s, d).reportComments
  {
    forall v | v in s.voteAnswers && v.val.aid in Keys(Cascade(s, d).answers) ensures v in Cascade(s, d).voteAnswers {
      KeptAnswerNotGone(s, d, v.val.aid);
    }
    forall v | v in s.voteComments && v.val.cid in Keys(Cascade(s, d).comments) ensures v in Cascade(s, d).voteComments {
      KeptCommentNotGone(s, d, v.val.cid);
    }
    forall r | r in s.reportAnswers && r.val.answerid in Keys(Cascade(s, d).answers) ensures r in Cascade(s, d).reportAnswers {
      KeptAnswerNotGone(s, d, r.val.answerid);
    }
    forall r | r in s.reportComments && r.val.commentid in Keys(Cascade(s, d).comments) ensures r in Cascade(s, d).reportComments {
      KeptCommentNotGone(s, d, r.val.commentid);
    }
  }

  // ---- Resolving a report -----------------------------------------------------

  /** The intended effect of setting report id to st: the status is stored,
      and acceptance removes the reported discussion with its dependants. */
  function Resolve(s: Tables, id: int, st: ReportStatus): Tables
    requires id in Keys(s.reports)
  {
    var report := Find(s.reports, id).value;
    var s' := s.(reports := SetStatus(s.reports, id, st));
    if st == ACCEPTED then Cascade(s', report.val.discussionid) else s'
  }

  lemma SetStatusReportsOk(t: seq<Row<Report>>, id: int, st: ReportStatus, discussions: seq<Row<Discussion>>)
    requires ReportsOk(t, discussions)
    ensures ReportsOk(SetStatus(t, id, st), discussions)
  {
    var r := SetStatus(t, id, st);
    forall x | x in r ensures ReportFits(x.val) && x.val.discussionid in Keys(discussions) {
      var i :| 0 <= i < |r| && r[i] == x;
      assert t[i] in t;
    }
  }

  /** Resolving a report keeps every table rule. */
  lemma ResolveConsistent(s: Tables, id: int, st: ReportStatus)
    requires Consistent(s)
    requires id in Keys(s.reports)
    ensures Consistent(Resolve(s, id, st))
  {
    SetStatusKeys(s.reports, id, st);
    SetStatusReportsOk(s.reports, id, st, s.discussions);
    var s' := s.(reports := SetStatus(s.reports, id, st));
    assert Consistent(s');
    if st == ACCEPTED {
      CascadeConsistent(s', Find(s.reports, id).value.val.discussionid);
    }
  }

  /** A non-accepting resolution changes the status of that one report and
      nothing else: all content stays reachable and unchanged. */
  lemma RejectChangesOnlyStatus(s: Tables, id: int, st: ReportStatus)
    requires KeysOk(s)
    requires id in Keys(s.reports)
    requires st != ACCEPTED
    ensures Resolve(s, id, st).(reports := s.reports) == s
    ensures Find(Resolve(s, id, st).reports, id) == Some(Row(id, Find(s.reports, id).value.val.(status := st)))
    ensures forall k :: k != id ==> Find(Resolve(s, id, st).reports, k) == Find(s.reports, k)
  {
    forall k ensures Find(Resolve(s, id, st).reports, k) ==
      match Find(s.reports, k)
      case None => None
      case Some(x) => Some(if k == id then Row(k, x.val.(status := st)) else x)
    {
      SetStatusEffect(s.reports, id, st, k);
    }
  }

  /** Accepting a report removes the discussion it names, all of that
      discussion's answers and comments, and every report against it,
      including the accepted one. */
  lemma AcceptRemovesContent(s: Tables, id: int)
    requires WellKeyed(s.reports)
    requires id in Keys(s.reports)
    ensures var d := Find(s.reports, id).value.val.discussionid;
      && d !in Keys(Resolve(s, id, ACCEPTED).discussions)
      && (forall a :: a in Resolve(s, id, ACCEPTED).answers ==> a.val.discussionid != d)
      && (forall m :: m in Resolve(s, id, ACCEPTED).comments ==> m.val.discussionid != d)
      && id !in Keys(Resolve(s, id, ACCEPTED).reports)
  {
    var d := Find(s.reports, id).value.val.discussionid;
    var s' := s.(reports := SetStatus(s.reports, id, ACCEPTED));
    CascadeRemovesDiscussion(s', d);
    forall x | x in Resolve(s, id, ACCEPTED).reports ensures x.id != id {
      var i :| 0 <= i < |s'.reports| && s'.reports[i] == x;
      assert s.reports[i] in s.reports;
      FindUnique(s.reports, s.reports[i]);
    }
  }

  // ---- The database -----------------------------------------------------------

  /** The database reached through a session. Each store operation commits
      at once; the tables are updated in place. Inserting a row checks the
      String(n) bounds first (DataError) and the foreign key second
      (IntegrityError), and assigns the next primary key. */
  class Database {
    var discussions: seq<Row<Discussion>>
    var answers: seq<Row<Answer>>
    var comments: seq<Row<Comment>>
    var voteAnswers: seq<Row<VoteAnswer>>
    var voteComments: seq<Row<VoteComment>>
    var reports: seq<Row<Report>>
    var reportAnswers: seq<Row<ReportAnswer>>
    var reportComments: seq<Row<ReportComment>>

    function State(): Tables
      reads this
    {
      Tables(discussions, answers, comments, voteAnswers, voteComments, reports, reportAnswers, reportComments)
    }

    ghost predicate Valid()
      reads this
    {
      Consistent(State())
    }

    constructor ()
      ensures Valid()
      ensures State() == Tables([], [], [], [], [], [], [], [])
    {
      discussions, answers, comments := [], [], [];
      voteAnswers, voteComments := [], [];
      reports, reportAnswers, reportComments := [], [], [];
    }

    /** discussion.py is not part of this model: a discussion is only its key. */
    method InsertDiscussion() returns (r: Row<Discussion>)
      requires Valid()
      modifies this`discussions
      ensures Valid()
      ensures r == Row(NextId(old(discussions)), Discussion) && discussions == Insert(old(discussions), Discussion)
    {
      InsertKeepsWellKeyed(discussions, Discussion);
      r := Row(NextId(discussions), Discussion);
      discussions := Insert(discussions, Discussion);
    }

    method InsertAnswer(v: Answer) returns (r: Result<Row<Answer>>)
      requires Valid()
      modifies this`answers
      ensures Valid()
      ensures r.Ok? <==> AnswerFits(v) && v.discussionid in Keys(discussions)
      ensures r.Err? ==> answers == old(answers) && r.error == (if AnswerFits(v) then IntegrityError else DataError)
      ensures r.Ok? ==> r.value == Row(NextId(old(answers)), v) && answers == Insert(old(answers), v)
    {
      if !AnswerFits(v) {
        return Err(DataError);
      }
      if v.discussionid !in Keys(discussions) {
        return Err(IntegrityError);
      }
      InsertKeepsWellKeyed(answers, v);
      r := Ok(Row(NextId(answers), v));
      answers := Insert(answers, v);
    }

    method InsertComment(v: Comment) returns (r: Result<Row<Comment>>)
      requires Valid()
      modifies this`comments
      ensures Valid()
      ensures r.Ok? <==> CommentFits(v) && v.answerid in Keys(answers)
      ensures r.Err? ==> comments == old(comments) && r.error == (if CommentFits(v) then IntegrityError else DataError)
      ensures r.Ok? ==> r.value == Row(NextId(old(comments)), v) && comments == Insert(old(comments), v)
    {
      if !CommentFits(v) {
        return Err(DataError);
      }
      if v.answerid !in Keys(answers) {
        return Err(IntegrityError);
      }
      InsertKeepsWellKeyed(comments, v);
      r := Ok(Row(NextId(comments), v));
      comments := Insert(comments, v);
    }

    method InsertVoteAnswer(v: VoteAnswer) returns (r: Result<Row<VoteAnswer>>)
      requires Valid()
      modifies this`voteAnswers
      ensures Valid()
      ensures r.Ok? <==> v.aid in Keys(answers)
      ensures r.Err? ==> voteAnswers == old(voteAnswers) && r.error == IntegrityError
      ensures r.Ok? ==> r.value == Row(NextId(old(voteAnswers)), v) && voteAnswers == Insert(old(voteAnswers), v)
    {
      if v.aid !in Keys(answers) {
        return Err(IntegrityError);
      }
      InsertKeepsWellKeyed(voteAnswers, v);
      r := Ok(Row(NextId(voteAnswers), v));
      voteAnswers := Insert(voteAnswers, v);
    }

    method InsertVoteComment(v: VoteComment) returns (r: Result<Row<VoteComment>>)
      requires Valid()
      modifies this`voteComments
      ensures Valid()
      ensures r.Ok? <==> v.cid in Keys(comments)
      ensures r.Err? ==> voteComments == old(voteComments) && r.error == IntegrityError
      ensures r.Ok? ==> r.value == Row(NextId(old(voteComments)), v) && voteComments == Insert(old(voteComments), v)
    {
      if v.cid !in Keys(comments) {
        return Err(IntegrityError);
      }
      InsertKeepsWellKeyed(voteComments, v);
      r := Ok(Row(NextId(voteComments), v));
      voteComments := Insert(voteComments, v);
    }

    method InsertReport(v: Report) returns (r: Result<Row<Report>>)
      requires Valid()
      modifies this`reports
      ensures Valid()
      ensures r.Ok? <==> ReportFits(v) && v.discussionid in Keys(discussions)
      ensures r.Err? ==> reports == old(reports) && r.error == (if ReportFits(v) then IntegrityError else DataError)
      ensures r.Ok? ==> r.value == Row(NextId(old(reports)), v) && reports == Insert(old(reports), v)
    {
      if !ReportFits(v) {
        return Err(DataError);
      }
      if v.discussionid !in Keys(discussions) {
        return Err(IntegrityError);
      }
      InsertKeepsWellKeyed(reports, v);
      r := Ok(Row(NextId(reports), v));
      reports := Insert(reports, v);
    }

    method InsertReportAnswer(v: ReportAnswer) returns (r: Result<Row<ReportAnswer>>)
      requires Valid()
      modifies this`reportAnswers
      ensures Valid()
      ensures r.Ok? <==> ReportAnswerFits(v) && v.answerid in Keys(answers)
      ensures r.Err? ==> reportAnswers == old(reportAnswers) && r.error == (if ReportAnswerFits(v) then IntegrityError else DataError)
      ensures r.Ok? ==> r.value == Row(NextId(old(reportAnswers)), v) && reportAnswers == Insert(old(reportAnswers), v)
    {
      if !ReportAnswerFits(v) {
        return Err(DataError);
      }
      if v.answerid !in Keys(answers) {
        return Err(IntegrityError);
      }
      InsertKeepsWellKeyed(reportAnswers, v);
      r := Ok(Row(NextId(reportAnswers), v));
      reportAnswers := Insert(reportAnswers, v);
    }

    method InsertReportComment(v: ReportComment) returns (r: Result<Row<ReportComment>>)
      requires Valid()
      modifies this`reportComments
      ensures Valid()
      ensures r.Ok? <==> ReportCommentFits(v) && v.commentid in Keys(comments)
      ensures r.Err? ==> reportComments == old(reportComments) && r.error == (if ReportCommentFits(v) then IntegrityError else DataError)
      ensures r.Ok? ==> r.value == Row(NextId(old(reportComments)), v) && reportComments == Insert(old(reportComments), v)
    {
      if !ReportCommentFits(v) {
        return Err(DataError);
      }
      if v.commentid !in Keys(comments) {
        return Err(IntegrityError);
      }
      InsertKeepsWellKeyed(reportComments, v);
      r := Ok(Row(NextId(reportComments), v));
      reportComments := Insert(reportComments, v);
    }

    /** `report.status = st` followed by a commit. */
    method SetReportStatus(id: int, st: ReportStatus)
      requires Valid()
      modifies this`reports
      ensures Valid()
      ensures reports == SetStatus(old(reports), id, st)
    {
      SetStatusKeys(reports, id, st);
      SetStatusReportsOk(reports, id, st, discussions);
      reports := SetStatus(reports, id, st);
    }

    /** Deletes discussion d with everything that depends on it. */
    method RemoveDiscussion(d: int)
      requires Valid()
      modifies this
      ensures Valid()
      ensures State() == Cascade(old(State()), d)
    {
      var s := State();
      CascadeConsistent(s, d);
      var c := Cascade(s, d);
      discussions, answers, comments := c.discussions, c.answers, c.comments;
      voteAnswers, voteComments := c.voteAnswers, c.voteComments;
      reports, reportAnswers, reportComments := c.reports, c.reportAnswers, c.reportComments;
    }
  }
}
