# Forum backend: entity store, comments and moderation

This project models the core of the dms2223 forum backend in Dafny. That
core has three parts:

- The **entity store.** These are the eight tables the backend keeps:
  discussions, answers, comments, answer votes, comment votes, discussion
  reports, answer reports and comment reports. The model gives their column
  rules (`String(250)`/`String(50)` bounds and foreign keys), auto-assigned
  integer keys, and the report status enumeration with its `PENDING` default.
- The **comment table operations** (`Comments`) and the **comment service**
  (`CommentsServices`).
- The **moderation service** (`reportsServices`): listing, creating, looking
  up and resolving reports.

Layout:

- `base.dfy`: Option, the errors the backend raises, and Result. Python
  truthiness of ids and strings.
- `table.dfy`: a table is a sequence of rows in insertion order, each with
  its integer key. It defines key assignment (`NextId`), insertion, the
  `filter_by(...).all()` query (`Filter`) and lookup by key (`Find`).
- `entities.dfy`: one datatype per ORM record, the column bounds, and
  `ReportStatus` with name rendering and lookup by name.
- `schema.dfy`: the table rules (`Consistent`), the status update
  (`SetStatus`), and the removal of a discussion together with everything
  that depends on it (`Cascade`). The class `Database` holds the tables and
  updates them in place. Each insert checks the length bounds first
  (DataError) and the foreign key second (IntegrityError).
- `comments.dfy`: `Comments` from resultsets/comments.py.
- `comment_services.dfy`: `CommentsServices` from service/commentservices.py.
- `moderation.dfy`: `reportsServices` from service/moderateservices.py.

The logic layers (`CommentLogic`, `ReportLogic`, `DiscussionLogic`) are
modelled as direct calls to the store. Store-assigned timestamps and the
user recorded with a comment or report are parameters.

Where the code does not do what it evidently means to do, the model has two
members. The `...AsWritten` member follows the code. The other member gives
the intended behaviour, and the rest of the model uses that one. See
"## Findings".

## Model

| member | source | states |
|---|---|---|
| Table.NextId | components/dms2223backend/dms2223backend/data/db/results/comment.py:46 | The key an insert receives is at least 1 and larger than every key already in the table |
| Table.InsertKeepsWellKeyed | components/dms2223backend/dms2223backend/data/db/results/answer.py:50 | Inserting keeps keys positive and strictly increasing, hence unique; the new key was not present before, and the key set grows by exactly that key |
| Table.Filter | components/dms2223backend/dms2223backend/data/db/resultsets/comments.py:81-82 | A query result holds exactly the rows of the table that satisfy the predicate, and is never longer than the table |
| Table.FilterAppend | components/dms2223backend/dms2223backend/data/db/resultsets/comments.py:100-101 | A query over rows appended to a table is the query over the old rows followed by the query over the new ones |
| Table.FilterKeepsWellKeyed | components/dms2223backend/dms2223backend/data/db/resultsets/comments.py:81-82 | A query result keeps its rows' keys unique and increasing |
| Table.MatchingCons | components/dms2223backend/dms2223backend/data/db/resultsets/comments.py:142-144 | The rows of a table matching a query are those of its tail plus its first row when that row matches |
| Table.FilterCard | components/dms2223backend/dms2223backend/data/db/resultsets/comments.py:142-146 | In a table with unique keys, a query returns exactly as many rows as there are distinct matching rows, so `count()` is the number of matching rows |
| Table.FilterNone | components/dms2223backend/dms2223backend/data/db/resultsets/comments.py:81-82 | A query that no row satisfies returns the empty list |
| Table.FilterNarrow | components/dms2223backend/dms2223backend/data/db/resultsets/comments.py:120-123 | Narrowing a query result by a stronger predicate is the same as querying the table with that predicate |
| Table.Find | components/dms2223backend/dms2223backend/service/moderateservices.py:208 | Lookup by key returns a row of the table with that key, and returns nothing exactly when no row has that key |
| Table.FindUnique | components/dms2223backend/dms2223backend/service/moderateservices.py:208 | In a table with unique keys, lookup by a row's key returns that very row |
| Entities.ParseStatus | components/dms2223backend/dms2223backend/service/moderateservices.py:209 | `ReportStatus[name]` gives the status whose name is `name`, and fails (KeyError) exactly when no status has that name |
| Entities.ParseStatusInverse | components/dms2223backend/dms2223backend/service/moderateservices.py:64 | Rendering a status by name and looking that name up gives the status back; lookup succeeds with `s` exactly for the name of `s` |
| Schema.SetStatus | components/dms2223backend/dms2223backend/service/moderateservices.py:209 | Setting a report's status leaves the number of reports unchanged |
| Schema.SetStatusKeys | components/dms2223backend/dms2223backend/service/moderateservices.py:209 | Setting a status keeps every key, and keys stay unique |
| Schema.SetStatusEffect | components/dms2223backend/dms2223backend/service/moderateservices.py:209 | After the assignment, the report with that key carries the new status and is otherwise unchanged; every other report is unchanged |
| Schema.SetStatusReportsOk | components/dms2223backend/dms2223backend/data/db/results/report.py:47-53 | A status change keeps the reports table within its column and foreign-key rules |
| Schema.CascadeAnswersOk | components/dms2223backend/dms2223backend/data/db/results/answer.py:51 | After a discussion is removed with its dependants, every remaining answer still refers to an existing discussion |
| Schema.CascadeCommentsOk | components/dms2223backend/dms2223backend/data/db/results/comment.py:48 | After the removal, every remaining comment still refers to an existing answer |
| Schema.CascadeVoteAnswersOk | components/dms2223backend/dms2223backend/data/db/results/voteAnswer.py:45 | After the removal, every remaining answer vote still refers to an existing answer |
| Schema.CascadeVoteCommentsOk | components/dms2223backend/dms2223backend/data/db/results/voteComment.py:45 | After the removal, every remaining comment vote still refers to an existing comment |
| Schema.CascadeReportsOk | components/dms2223backend/dms2223backend/data/db/results/report.py:49 | After the removal, every remaining discussion report still refers to an existing discussion |
| Schema.CascadeReportAnswersOk | components/dms2223backend/dms2223backend/data/db/results/reportanswer.py:47 | After the removal, every remaining answer report still refers to an existing answer |
| Schema.CascadeReportCommentsOk | components/dms2223backend/dms2223backend/data/db/results/reportcomment.py:47 | After the removal, every remaining comment report still refers to an existing comment |
| Schema.CascadeKeysOk | components/dms2223backend/dms2223backend/data/db/results/comment.py:46 | The removal keeps the keys of every table unique and increasing |
| Schema.CascadeConsistent | components/dms2223backend/dms2223backend/service/moderateservices.py:218-225 | Removing a discussion with its dependants keeps every table rule: no foreign key is left dangling |
| Schema.CascadeRemovesDiscussion | components/dms2223backend/dms2223backend/service/moderateservices.py:218-225 | After the removal, the discussion is gone, no answer or report refers to it, and every remaining comment names another discussion and is not under any answer that discussion had |
| Schema.CascadeKeepsOthers | components/dms2223backend/dms2223backend/service/moderateservices.py:218-225 | The removal keeps every other discussion, every answer and report of other discussions, and every comment that belongs elsewhere |
| Schema.KeptAnswerNotGone | components/dms2223backend/dms2223backend/data/db/results/answer.py:65-67 | An answer that survives the removal is not one of the removed answers, so its dependants stay |
| Schema.KeptCommentNotGone | components/dms2223backend/dms2223backend/data/db/results/comment.py:62-63 | A comment that survives the removal is not one of the removed comments, so its dependants stay |
| Schema.CascadeKeepsDependants | components/dms2223backend/dms2223backend/service/moderateservices.py:218-225 | Nothing else goes: every answer vote, comment vote, answer report and comment report whose answer or comment survives the removal survives with it |
| Schema.CascadeKeepsCommentVotes | components/dms2223backend/dms2223backend/data/db/resultsets/comments.py:142-146 | A comment that survives the removal keeps every one of its votes, so its vote count is unchanged |
| Schema.ResolveConsistent | components/dms2223backend/dms2223backend/service/moderateservices.py:205-216 | Resolving a report, by either accepting or rejecting it, keeps every table rule |
| Schema.RejectChangesOnlyStatus | components/dms2223backend/dms2223backend/service/moderateservices.py:209-216 | A resolution other than ACCEPTED changes only the status of that one report; every other table and report is unchanged |
| Schema.AcceptRemovesContent | components/dms2223backend/dms2223backend/service/moderateservices.py:210-211 | Accepting a report removes the discussion it names, that discussion's answers and comments, and the accepted report itself |
| Schema.Database.constructor | components/dms2223backend/dms2223backend/data/db/results/answer.py:47-55 | A fresh store has empty tables and satisfies every table rule |
| Schema.Database.InsertAnswer | components/dms2223backend/dms2223backend/data/db/results/answer.py:50-54 | Succeeds exactly when content and user fit and the discussion exists; the row is appended with the next key and the given fields; on failure the table is unchanged, with DataError for a bound and IntegrityError for the foreign key |
| Schema.Database.InsertComment | components/dms2223backend/dms2223backend/data/db/results/comment.py:46-51 | Succeeds exactly when content and user fit and the answer exists; `discussionid` is not checked; the row is appended with the next key; on failure the table is unchanged |
| Schema.Database.InsertVoteAnswer | components/dms2223backend/dms2223backend/data/db/results/voteAnswer.py:44-45 | Succeeds exactly when the answer exists, appending a fresh vote row however many votes the answer already has |
| Schema.Database.InsertVoteComment | components/dms2223backend/dms2223backend/data/db/results/voteComment.py:44-45 | Succeeds exactly when the comment exists, appending a fresh vote row however many votes the comment already has |
| Schema.Database.InsertReport | components/dms2223backend/dms2223backend/data/db/results/report.py:47-53 | Succeeds exactly when the reason fits and the discussion exists; appended with the next key; on failure the table is unchanged |
| Schema.Database.InsertReportAnswer | components/dms2223backend/dms2223backend/data/db/results/reportanswer.py:45-50 | Succeeds exactly when reason and user fit and the answer exists; appended with the next key; on failure the table is unchanged |
| Schema.Database.InsertReportComment | components/dms2223backend/dms2223backend/data/db/results/reportcomment.py:45-50 | Succeeds exactly when reason and user fit and the comment exists; appended with the next key; on failure the table is unchanged |
| Schema.Database.SetReportStatus | components/dms2223backend/dms2223backend/service/moderateservices.py:209-214 | The status assignment followed by a commit: the reports table becomes `SetStatus` of the old one, and the table rules still hold |
| Schema.Database.RemoveDiscussion | components/dms2223backend/dms2223backend/service/moderateservices.py:218-225 | Intended `quitar_discusion`: the store becomes `Cascade` of the old store, and the table rules still hold |
| Comments.AddComment | components/dms2223backend/dms2223backend/data/db/resultsets/comments.py:32-42 | A falsy answer id, content or discussion id gives ValueError with nothing stored; otherwise the comment is appended with the next key exactly when it fits and its answer exists; when the fields fit, a missing answer gives DiscussionNotFound, and oversized fields give DataError, both storing nothing |
| Comments.AddCommentAsWritten | components/dms2223backend/dms2223backend/data/db/resultsets/comments.py:32-35 | As written `comment` never succeeds: ValueError exactly for falsy input, TypeError for every other input |
| Comments.ListAllForDiscussion | components/dms2223backend/dms2223backend/data/db/resultsets/comments.py:79-82 | ValueError exactly for a falsy id; otherwise exactly the comments whose discussionid is d |
| Comments.ListAllForAnswer | components/dms2223backend/dms2223backend/data/db/resultsets/comments.py:98-101 | ValueError exactly for a falsy id; otherwise exactly the comments whose answerid is a |
| Comments.AnswerHasComments | components/dms2223backend/dms2223backend/data/db/resultsets/comments.py:58-63 | ValueError exactly for a falsy id; otherwise true exactly when some comment hangs under the answer |
| Comments.GetComment | components/dms2223backend/dms2223backend/data/db/resultsets/comments.py:118-123 | ValueError exactly when either id is falsy; otherwise the list of every comment matching both ids |
| Comments.GetVote | components/dms2223backend/dms2223backend/data/db/resultsets/comments.py:140-146 | ValueError exactly for a falsy id; otherwise the number of distinct vote rows naming the comment (in a table with unique keys), never more than the table holds, and zero exactly when no vote names it |
| Comments.VoteCountAfterVote | components/dms2223backend/dms2223backend/data/db/resultsets/comments.py:142-146 | One more vote on a comment raises its count by exactly one and leaves the count of every other comment alone; repeated votes all count |
| Comments.InsertedCommentListedForDiscussion | components/dms2223backend/dms2223backend/data/db/resultsets/comments.py:79-82 | A stored comment appears at the end of its discussion's listing, and the listings of other discussions do not change |
| Comments.InsertedCommentListedForAnswer | components/dms2223backend/dms2223backend/data/db/resultsets/comments.py:98-101 | A stored comment appears at the end of its answer's listing, and the listings of other answers do not change |
| Comments.CascadeEmptiesListing | components/dms2223backend/dms2223backend/data/db/resultsets/comments.py:79-82 | Once a discussion is removed, listing its comments gives the empty list |
| CommentServices.CommentAnswer | components/dms2223backend/dms2223backend/service/commentservices.py:26-41 | On success the record carries the input ids and content with the assigned key and timestamp, and that comment was appended; every insert error reaches the caller unchanged with the table as it was, and the error cases are exactly the falsy, oversized and missing-answer inputs |
| CommentServices.ListAllForDiscussion | components/dms2223backend/dms2223backend/service/commentservices.py:54-68 | ValueError exactly for a falsy id; otherwise one entry per comment of the discussion, in table order, each carrying that comment's vote row count |
| CommentServices.ListAllForAnswer | components/dms2223backend/dms2223backend/service/commentservices.py:81-93 | ValueError exactly for a falsy id; otherwise one entry per comment of the answer, in table order, with no vote count |
| CommentServices.VoteForComment | components/dms2223backend/dms2223backend/service/commentservices.py:131-136 | Returns True exactly when the comment exists, after appending one vote; otherwise IntegrityError and no vote stored |
| Moderation.GetReportById | components/dms2223backend/dms2223backend/service/moderateservices.py:29-43 | Intended lookup: the empty result exactly when no report has the key, otherwise the stored report with that key |
| Moderation.GetReportByIdAsWritten | components/dms2223backend/dms2223backend/service/moderateservices.py:33-36 | As written: the empty result when absent, AttributeError("title") whenever the report exists |
| Moderation.ListReports | components/dms2223backend/dms2223backend/service/moderateservices.py:55-68 | Intended listing: one entry per stored report, in table order, with the status rendered by a name that looks up to the stored status |
| Moderation.ListReportsAsWritten | components/dms2223backend/dms2223backend/service/moderateservices.py:58-66 | As written: succeeds, with the empty list, only on an empty table; AttributeError("user") otherwise |
| Moderation.ListReportsAnswer | components/dms2223backend/dms2223backend/service/moderateservices.py:80-93 | One entry per stored answer report, in table order, with the status rendered by name |
| Moderation.ListReportsComments | components/dms2223backend/dms2223backend/service/moderateservices.py:104-117 | One entry per stored comment report, in table order, with the status rendered by name |
| Moderation.CreateReport | components/dms2223backend/dms2223backend/service/moderateservices.py:131-147 | Intended: succeeds exactly when the reason fits and the discussion exists, storing a PENDING report with no tipo and returning its key, reason, target and status name; an error stores nothing |
| Moderation.CreateReportAsWritten | components/dms2223backend/dms2223backend/service/moderateservices.py:134-141 | As written: always an error; for valid input the report is stored and then AttributeError("user") is raised; invalid input stores nothing |
| Moderation.CreateReportAnswer | components/dms2223backend/dms2223backend/service/moderateservices.py:188-203 | Intended: succeeds exactly when reason and user fit and the answer exists, storing a PENDING report and returning its key, reason, target, status name and user; an error stores nothing and is DataError for an oversized field, IntegrityError for a missing answer |
| Moderation.CreateReportAnswerAsWritten | components/dms2223backend/dms2223backend/service/moderateservices.py:191-194 | As written: always an error; for valid input the report is stored and then AttributeError("tipo") is raised; invalid input stores nothing |
| Moderation.CreateReportComment | components/dms2223backend/dms2223backend/service/moderateservices.py:160-175 | Intended: succeeds exactly when reason and user fit and the comment exists, storing a PENDING report and returning its key, reason, target, status name and user; an error stores nothing and is DataError for an oversized field, IntegrityError for a missing comment |
| Moderation.CreateReportCommentAsWritten | components/dms2223backend/dms2223backend/service/moderateservices.py:163-166 | As written: always an error; for valid input the report is stored and then AttributeError("tipo") is raised; invalid input stores nothing |
| Moderation.UpdateReportStatus | components/dms2223backend/dms2223backend/service/moderateservices.py:205-216 | Intended: an unknown status name gives KeyError and a missing report AttributeError("status"), both leaving the store unchanged; otherwise the store becomes `Resolve` of the old one (status persisted; on ACCEPTED the discussion and its dependants are removed), with no guard on the current status |
| Moderation.UpdateReportStatusAsWritten | components/dms2223backend/dms2223backend/service/moderateservices.py:208-216 | As written nothing reaches the store: KeyError for an unknown name, AttributeError("status") for a missing report, AttributeError("reporte") on ACCEPTED, and success without persisting for any other status |
| Moderation.QuitarDiscusionAsWritten | components/dms2223backend/dms2223backend/service/moderateservices.py:218-225 | As written nothing is deleted: success exactly when the discussion exists, UnmappedInstanceError otherwise |

## Left out

- Session lifecycle (`new_session`, `remove_session`), transactions and
  isolation are not modelled. The store is a single sequential state, and
  each store operation commits at once.
- Timestamps (`func.now()`) are a parameter `now` supplied by the caller, not a clock.
- The user of a comment or of an answer/comment report is a parameter. The
  logic layers that would supply it (`CommentLogic`, `ReportLogic`) are not
  part of this model.
- discussion.py is not part of this model. A discussion is only its key,
  and `Database.InsertDiscussion` exists only to create one.
- `Comments.list_all` is the table itself (`Database.comments`) and has no member of its own.
- `CommentsServices.get_comment` is not modelled. It is not among the
  service operations of this core, and it would read fields off the list
  that `Comments.get_comment` returns.
- The `tipo` convention on reports (1 discussion, 2 answer, 3 comment) is a
  comment on a nullable column. The database does not enforce it, so no
  table rule states it. Every report created here has no tipo.
- The database is assumed to enforce the `String(n)` bounds and the
  foreign keys. SQLite does not do so by default.
- Table.NextId: a new key is one more than the largest key present, so the
  key of a removed newest row can be given out again (SQLite's rowid
  behaviour without AUTOINCREMENT). Removal also takes every row that
  refers to the removed one, so no stale reference can see a reused key.
- ORM relationships are reduced to the foreign-key facts they imply.
- Accepting an answer report or a comment report is not modelled: the code
  has no resolution operation for those tables.
- Moderation.UpdateReportStatus: a resolved report can be resolved again.
  The code has no guard on the current status
  (service/moderateservices.py:208-209), and the model follows the code.
- Moderation.UpdateReportStatusAsWritten: "never persisted" holds for this
  call only. On that path `remove_session` is skipped, and whether a later
  commit on the same scoped session would flush the pending status depends
  on the session setup, which is not part of this model.
- Schema.Cascade removes the accepted report too. Its foreign key to the
  removed discussion would otherwise dangle. So after acceptance, the
  ACCEPTED status of a discussion report is not visible in the store.
- CommentServices.ListAllForDiscussion: requires that no stored comment has
  key 0. `get_vote` rejects a falsy id (resultsets/comments.py:140-141), and
  the listing passes it each comment's key. The store's keys are never 0
  (`Table.NextId`).

## Findings

| source | as written | input that shows it | evidently intended | confidence | as-written member | corrected member |
|---|---|---|---|---|---|---|
| components/dms2223backend/dms2223backend/data/db/resultsets/comments.py:35 | `Comment(discussionid, answerid, content)` passes three arguments to a constructor that takes four (`user`, comment.py:15), so TypeError is raised | `comment(session, 1, 1, "hi")` | store the comment with its user | not executed | Comments.AddCommentAsWritten | Comments.AddComment |
| components/dms2223backend/dms2223backend/service/moderateservices.py:35-36 | reads `report.title` and `report.content`, which a report does not have | any id of a stored report | return the report's own columns | not executed | Moderation.GetReportByIdAsWritten | Moderation.GetReportById |
| components/dms2223backend/dms2223backend/service/moderateservices.py:65 | reads `report.user`, but the reports table has no user column | any non-empty reports table | list the columns a report has | not executed | Moderation.ListReportsAsWritten | Moderation.ListReports |
| components/dms2223backend/dms2223backend/service/moderateservices.py:141 | reads `new_report.user` after the report is committed, so the caller gets an error while the report stays stored | `create_report(1, "spam")` with discussion 1 present | return the stored report | not executed | Moderation.CreateReportAsWritten | Moderation.CreateReport |
| components/dms2223backend/dms2223backend/service/moderateservices.py:194 | reads `new_report.tipo`, which answer reports lack, after the commit | `create_report_answer(1, "spam")` with answer 1 present | return the stored report | not executed | Moderation.CreateReportAnswerAsWritten | Moderation.CreateReportAnswer |
| components/dms2223backend/dms2223backend/service/moderateservices.py:166 | reads `new_report.tipo`, which comment reports lack, after the commit | `create_report_comment(1, "spam")` with comment 1 present | return the stored report | not executed | Moderation.CreateReportCommentAsWritten | Moderation.CreateReportComment |
| components/dms2223backend/dms2223backend/service/moderateservices.py:211 | `schema. reporte.id` is attribute access on the schema, raising AttributeError before the commit; even as a call it would pass the report's key rather than its discussionid | `update_report_status(schema, 1, "ACCEPTED")` with report 1 present | persist ACCEPTED and remove the reported discussion | not executed | Moderation.UpdateReportStatusAsWritten | Moderation.UpdateReportStatus |
| components/dms2223backend/dms2223backend/service/moderateservices.py:213-216 | the add and commit are indented under the ACCEPTED branch, so any other status is never persisted | `update_report_status(schema, 1, "REJECTED")` with report 1 present | persist every valid status | not executed | Moderation.UpdateReportStatusAsWritten | Schema.RejectChangesOnlyStatus |
| components/dms2223backend/dms2223backend/service/moderateservices.py:218-225 | `quitar_discusion` adds the discussion back to the session and deletes nothing | `quitar_discusion(schema, 1)` with discussion 1 present | remove the discussion and everything depending on it | not executed | Moderation.QuitarDiscusionAsWritten | Schema.Database.RemoveDiscussion |
