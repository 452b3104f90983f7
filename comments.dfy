/** Table-level operations on comments (`Comments` in
    resultsets/comments.py). `list_all` is the table itself,
    `Database.comments`. */
module Comments {
  import opened Base
  import opened Table
  import opened Entities
  import opened Schema

  /** `comment`: rejects a falsy answer id, content or discussion id with
      ValueError; otherwise inserts the comment, turning a foreign-key
      violation into DiscussionNotFound. The user column is required by the
      table and is passed through. */
  method AddComment(db: Database, discussionid: int, answerid: int, content: string, user: string, now: Timestamp)
    returns (r: Result<Row<Comment>>)
    requires db.Valid()
    modifies db`comments
    ensures db.Valid()
    ensures FalsyId(answerid) || FalsyText(content) || FalsyId(discussionid) ==>
      r == Err(ValueError) && db.comments == old(db.comments)
    ensures !(FalsyId(answerid) || FalsyText(content) || FalsyId(discussionid)) ==>
      var v := Comment(discussionid, answerid, content, now, user);
      && (r.Ok? <==> CommentFits(v) && answerid in Keys(db.answers))
      && (r.Err? ==> db.comments == old(db.comments) && r.error == (if CommentFits(v) then DiscussionNotFound else DataError))
      && (r.Ok? ==> r.value == Row(NextId(old(db.comments)), v) && db.comments == old(db.comments) + [r.value])
  {
    if FalsyId(answerid) || FalsyText(content) || FalsyId(discussionid) {
      return Err(ValueError);
    }
    var inserted := db.InsertComment(Comment(discussionid, answerid, content, now, user));
    if inserted.Err? && inserted.error == IntegrityError {
      r := Err(DiscussionNotFound);
    } else {
      r := inserted;
    }
  }

  /** `comment` as written: the record is built with three arguments where
      the constructor takes four, so every call that passes the validation
      raises TypeError before anything is added to the session. */
  function AddCommentAsWritten(discussionid: int, answerid: int, content: string): (r: Result<Row<Comment>>)
    ensures r.Err?
    ensures r.error == ValueError <==> FalsyId(answerid) || FalsyText(content) || FalsyId(discussionid)
    ensures r.error != ValueError ==> r.error == TypeError
  {
    if FalsyId(answerid) || FalsyText(content) || FalsyId(discussionid) then Err(ValueError)
    else Err(TypeError)
  }

  /** `list_all_for_discussion`: the comments whose discussionid is d. */
  function ListAllForDiscussion(comments: seq<Row<Comment>>, d: int): (r: Result<seq<Row<Comment>>>)
    ensures r.Err? <==> FalsyId(d)
    ensures r.Err? ==> r.error == ValueError
    ensures r.Ok? ==> forall c :: c in r.value <==> c in comments && c.val.discussionid == d
  {
    if FalsyId(d) then Err(ValueError)
    else Ok(Filter(comments, (c: Row<Comment>) => c.val.discussionid == d))
  }

  /** `list_all_for_answer`: the comments whose answerid is a. */
  function ListAllForAnswer(comments: seq<Row<Comment>>, a: int): (r: Result<seq<Row<Comment>>>)
    ensures r.Err? <==> FalsyId(a)
    ensures r.Err? ==> r.error == ValueError
    ensures r.Ok? ==> forall c :: c in r.value <==> c in comments && c.val.answerid == a
  {
    if FalsyId(a) then Err(ValueError)
    else Ok(Filter(comments, (c: Row<Comment>) => c.val.answerid == a))
  }

  /** `answer_has_comments`: whether any comment hangs under answer a. */
  function AnswerHasComments(comments: seq<Row<Comment>>, a: int): (r: Result<bool>)
    ensures r.Err? <==> FalsyId(a)
    ensures r.Err? ==> r.error == ValueError
    ensures r.Ok? ==> (r.value <==> exists c :: c in comments && c.val.answerid == a)
  {
    if FalsyId(a) then Err(ValueError)
    else
      var listed := ListAllForAnswer(comments, a).value;
      assert forall c :: c in comments && c.val.answerid == a ==> c in listed;
      assert |listed| != 0 ==> listed[0] in listed;
      Ok(|listed| != 0)
  }

  /** `get_comment`: every comment matching both ids (a list). */
  function GetComment(comments: seq<Row<Comment>>, d: int, a: int): (r: Result<seq<Row<Comment>>>)
    ensures r.Err? <==> FalsyId(a) || FalsyId(d)
    ensures r.Err? ==> r.error == ValueError
    ensures r.Ok? ==> forall c :: c in r.value <==> c in comments && c.val.discussionid == d && c.val.answerid == a
  {
    if FalsyId(a) || FalsyId(d) then Err(ValueError)
    else Ok(Filter(comments, (c: Row<Comment>) => c.val.discussionid == d && c.val.answerid == a))
  }

  /** `get_vote`: the number of vote rows of comment c (`count()` of the
      rows with `cid = c`). */
  function GetVote(votes: seq<Row<VoteComment>>, c: int): (r: Result<nat>)
    ensures r.Err? <==> FalsyId(c)
    ensures r.Err? ==> r.error == ValueError
    ensures r.Ok? ==> r.value <= |votes|
    ensures r.Ok? ==> (r.value == 0 <==> forall v :: v in votes ==> v.val.cid != c)
    ensures r.Ok? && WellKeyed(votes) ==> r.value == |set v | v in votes && v.val.cid == c|
  {
    if FalsyId(c) then Err(ValueError)
    else
      var mine := CommentVotes(votes, c);
      assert WellKeyed(votes) ==> |mine| == |set v | v in votes && v.val.cid == c| by {
        if WellKeyed(votes) {
          var p := (v: Row<VoteComment>) => v.val.cid == c;
          FilterCard(votes, p);
          assert (set v | v in votes && p(v)) == set v | v in votes && v.val.cid == c;
        }
      }
      assert forall v :: v in votes && v.val.cid == c ==> v in mine;
      assert |mine| != 0 ==> mine[0] in mine;
      Ok(|mine|)
  }

  /** Casting a vote on comment c raises its count by one and leaves the
      count of every other comment alone: the count is the number of votes
      cast, with no deduplication. */
  lemma VoteCountAfterVote(votes: seq<Row<VoteComment>>, c: int, other: int)
    requires !FalsyId(c) && other != c
    ensures GetVote(Insert(votes, VoteComment(c)), c).value == GetVote(votes, c).value + 1
    ensures GetVote(Insert(votes, VoteComment(c)), other) == GetVote(votes, other)
  {
    var row := Row(NextId(votes), VoteComment(c));
    FilterAppend(votes, [row], (v: Row<VoteComment>) => v.val.cid == c);
    FilterAppend(votes, [row], (v: Row<VoteComment>) => v.val.cid == other);
  }

  /** A stored comment shows up at the end of the listing of its
      discussion; the listings of other discussions are unchanged. */
  lemma InsertedCommentListedForDiscussion(comments: seq<Row<Comment>>, v: Comment, d: int)
    requires !FalsyId(v.discussionid) && !FalsyId(d)
    ensures ListAllForDiscussion(Insert(comments, v), v.discussionid).value ==
      ListAllForDiscussion(comments, v.discussionid).value + [Row(NextId(comments), v)]
    ensures d != v.discussionid ==> ListAllForDiscussion(Insert(comments, v), d) == ListAllForDiscussion(comments, d)
  {
    var row := Row(NextId(comments), v);
    assert [row][1..] == [];
    FilterAppend(comments, [row], (c: Row<Comment>) => c.val.discussionid == v.discussionid);
    FilterAppend(comments, [row], (c: Row<Comment>) => c.val.discussionid == d);
    if d != v.discussionid {
      FilterNone([row], (c: Row<Comment>) => c.val.discussionid == d);
      assert Insert(comments, v) == comments + [row];
      assert Filter(comments, (c: Row<Comment>) => c.val.discussionid == d) + [] ==
        Filter(comments, (c: Row<Comment>) => c.val.discussionid == d);
    }
  }

  /** A stored comment shows up at the end of the listing of its answer;
      the listings of other answers are unchanged. */
  lemma InsertedCommentListedForAnswer(comments: seq<Row<Comment>>, v: Comment, a: int)
    requires !FalsyId(v.answerid) && !FalsyId(a)
    ensures ListAllForAnswer(Insert(comments, v), v.answerid).value ==
      ListAllForAnswer(comments, v.answerid).value + [Row(NextId(comments), v)]
    ensures a != v.answerid ==> ListAllForAnswer(Insert(comments, v), a) == ListAllForAnswer(comments, a)
  {
    var row := Row(NextId(comments), v);
    assert [row][1..] == [];
    FilterAppend(comments, [row], (c: Row<Comment>) => c.val.answerid == v.answerid);
    FilterAppend(comments, [row], (c: Row<Comment>) => c.val.answerid == a);
    if a != v.answerid {
      FilterNone([row], (c: Row<Comment>) => c.val.answerid == a);
      assert Insert(comments, v) == comments + [row];
      assert Filter(comments, (c: Row<Comment>) => c.val.answerid == a) + [] ==
        Filter(comments, (c: Row<Comment>) => c.val.answerid == a);
    }
  }

  /** Once discussion d is removed, listing its comments finds none. */
  lemma CascadeEmptiesListing(s: Tables, d: int)
    requires !FalsyId(d)
    ensures ListAllForDiscussion(Cascade(s, d).comments, d) == Ok([])
  {
    CascadeRemovesDiscussion(s, d);
    FilterNone(Cascade(s, d).comments, (c: Row<Comment>) => c.val.discussionid == d);
  }
}
