/** High-level comment use cases (`CommentsServices` in
    service/commentservices.py). Each call opens and releases its own
    session; the session is the database passed in. `CommentLogic` is a
    direct pass-through to the comment table operations. */
module CommentServices {
  import opened Base
  import opened Table
  import opened Entities
  import opened Schema
  import Comments

  /** The dictionary returned for a created or listed comment. */
  datatype CommentView = CommentView(id: int, discussionid: int, answerid: int, content: string, timestamp: Timestamp)

  /** The dictionary of the discussion listing, with the comment's votes. */
  datatype VotedCommentView = VotedCommentView(id: int, discussionid: int, answerid: int, content: string, vote: nat, timestamp: Timestamp)

  function View(c: Row<Comment>): CommentView {
    CommentView(c.id, c.val.discussionid, c.val.answerid, c.val.content, c.val.timestamp)
  }

  function Voted(c: Row<Comment>, vote: nat): VotedCommentView {
    VotedCommentView(c.id, c.val.discussionid, c.val.answerid, c.val.content, vote, c.val.timestamp)
  }

  /** `comment`: stores the comment and returns its fields with the assigned
      id and timestamp; every error of the insert reaches the caller
      unchanged and leaves the table as it was. */
  method CommentAnswer(db: Database, discussionid: int, answerid: int, content: string, user: string, now: Timestamp)
    returns (r: Result<CommentView>)
    requires db.Valid()
    modifies db`comments
    ensures db.Valid()
    ensures r.Ok? ==>
      && r.value == CommentView(NextId(old(db.comments)), discussionid, answerid, content, now)
      && db.comments == old(db.comments) + [Row(r.value.id, Comment(discussionid, answerid, content, now, user))]
    ensures r.Err? ==> db.comments == old(db.comments)
    ensures r.Err? <==>
      || FalsyId(answerid) || FalsyText(content) || FalsyId(discussionid)
      || !CommentFits(Comment(discussionid, answerid, content, now, user))
      || answerid !in Keys(db.answers)
    ensures r.Err? ==>
      r.error ==
        if FalsyId(answerid) || FalsyText(content) || FalsyId(discussionid) then ValueError
        else if !CommentFits(Comment(discussionid, answerid, content, now, user)) then DataError
        else DiscussionNotFound
  {
    var created := Comments.AddComment(db, discussionid, answerid, content, user, now);
    if created.Err? {
      return Err(created.error);
    }
    var c := created.value;
    r := Ok(CommentView(c.id, c.val.discussionid, c.val.answerid, c.val.content, c.val.timestamp));
  }

  /** `list_all_for_discussion`: one entry per stored comment of discussion
      d, in table order, each with that comment's vote count. */
  method ListAllForDiscussion(db: Database, d: int) returns (r: Result<seq<VotedCommentView>>)
    requires forall c :: c in db.comments ==> !FalsyId(c.id)
    ensures r.Err? <==> FalsyId(d)
    ensures r.Err? ==> r.error == ValueError
    ensures r.Ok? ==>
      var listed := Comments.ListAllForDiscussion(db.comments, d).value;
      && |r.value| == |listed|
      && (forall i :: 0 <= i < |listed| ==> r.value[i] == Voted(listed[i], |CommentVotes(db.voteComments, listed[i].id)|))
      && (forall i :: 0 <= i < |r.value| ==> r.value[i].discussionid == d)
  {
    var fetched := Comments.ListAllForDiscussion(db.comments, d);
    if fetched.Err? {
      return Err(fetched.error);
    }
    var comments := fetched.value;
    var out: seq<VotedCommentView> := [];
    var i := 0;
    while i < |comments|
      invariant 0 <= i <= |comments|
      invariant |out| == i
      invariant forall k :: 0 <= k < i ==> out[k] == Voted(comments[k], |CommentVotes(db.voteComments, comments[k].id)|)
      invariant forall k :: 0 <= k < i ==> out[k].discussionid == d
    {
      var c := comments[i];
      assert c in comments;
      var vote := Comments.GetVote(db.voteComments, c.id);
      out := out + [VotedCommentView(c.id, c.val.discussionid, c.val.answerid, c.val.content, vote.value, c.val.timestamp)];
      i := i + 1;
    }
    r := Ok(out);
  }

  /** `list_all_for_answer`: one entry per stored comment of answer a, in
      table order, without a vote count. */
  method ListAllForAnswer(db: Database, a: int) returns (r: Result<seq<CommentView>>)
    ensures r.Err? <==> FalsyId(a)
    ensures r.Err? ==> r.error == ValueError
    ensures r.Ok? ==>
      var listed := Comments.ListAllForAnswer(db.comments, a).value;
      && |r.value| == |listed|
      && (forall i :: 0 <= i < |listed| ==> r.value[i] == View(listed[i]))
      && (forall i :: 0 <= i < |r.value| ==> r.value[i].answerid == a)
  {
    var fetched := Comments.ListAllForAnswer(db.comments, a);
    if fetched.Err? {
      return Err(fetched.error);
    }
    var comments := fetched.value;
    var out: seq<CommentView> := [];
    var i := 0;
    while i < |comments|
      invariant 0 <= i <= |comments|
      invariant |out| == i
      invariant forall k :: 0 <= k < i ==> out[k] == View(comments[k])
      invariant forall k :: 0 <= k < i ==> out[k].answerid == a
    {
      var c := comments[i];
      assert c in comments;
      out := out + [CommentView(c.id, c.val.discussionid, c.val.answerid, c.val.content, c.val.timestamp)];
      i := i + 1;
    }
    r := Ok(out);
  }

  /** `vote_comment`: stores one more vote row for comment cid and answers
      True; a missing comment is a foreign-key violation that reaches the
      caller. */
  method VoteForComment(db: Database, cid: int) returns (r: Result<bool>)
    requires db.Valid()
    modifies db`voteComments
    ensures db.Valid()
    ensures r.Ok? <==> cid in Keys(db.comments)
    ensures r.Ok? ==> r.value && db.voteComments == Insert(old(db.voteComments), VoteComment(cid))
    ensures r.Err? ==> r.error == IntegrityError && db.voteComments == old(db.voteComments)
  {
    var stored := db.InsertVoteComment(VoteComment(cid));
    if stored.Err? {
      return Err(stored.error);
    }
    r := Ok(true);
  }
}
