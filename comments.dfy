/** The comment section under a post: the loaded comments, the text being
    typed, and the loading flag; posting and deleting go through the
    authenticated fetch, so a 401 also signs the user out. */
module Comments {
  import opened Common
  import Text
  import Lists
  import Auth

  const SubmitFailedMessage := "댓글 작성 중 오류가 발생했습니다."
  const DeleteFailedMessage := "댓글 삭제 중 오류가 발생했습니다."

  datatype Comment = Comment(id: string, authorEmail: string, content: string, createdAt: string)

  /** The delete control is shown to an administrator, and to the author. */
  predicate CanDelete(user: Option<User>, comment: Comment) {
    IsAdmin(user) || (user.Some? && user.value.email == comment.authorEmail)
  }

  function IdOf(c: Comment): string {
    c.id
  }

  /** `comments.filter((c) => c._id !== commentId)` */
  function Remaining(comments: seq<Comment>, commentId: string): seq<Comment> {
    Lists.Without(comments, IdOf, commentId)
  }

  /** Deleting removes exactly the comments with that id: every other
      comment stays, as often as it was there, in its original order. */
  lemma RemainingIsExact(comments: seq<Comment>, commentId: string)
    ensures forall c :: c in Remaining(comments, commentId) <==> c in comments && c.id != commentId
    ensures forall c: Comment :: c.id != commentId ==>
      multiset(Remaining(comments, commentId))[c] == multiset(comments)[c]
    ensures Lists.IsSubsequence(Remaining(comments, commentId), comments)
  {
    Lists.WithoutIsExact(comments, IdOf, commentId);
  }

  /** Deleting an id that is not listed changes nothing. */
  lemma RemainingWithoutMatch(comments: seq<Comment>, commentId: string)
    requires forall i | 0 <= i < |comments| :: comments[i].id != commentId
    ensures Remaining(comments, commentId) == comments
  {
    Lists.WithoutAbsent(comments, IdOf, commentId);
  }

  class CommentSection {
    var comments: seq<Comment>
    var newComment: string
    var isLoading: bool
    const apiUrl: string
    const postId: string

    constructor (apiUrl: string, postId: string)
      ensures this.apiUrl == apiUrl && this.postId == postId
      ensures comments == [] && newComment == "" && isLoading
    {
      this.apiUrl := apiUrl;
      this.postId := postId;
      comments := [];
      newComment := "";
      isLoading := true;
    }

    /** The "loading" notice. */
    function ShowsLoading(): bool
      reads this
    {
      isLoading
    }

    /** The "no comments yet" notice. */
    function ShowsEmptyNotice(): bool
      reads this
    {
      !isLoading && |comments| == 0
    }

    /** The initial load (a plain fetch): a good reply replaces the list, a
        failed one leaves it; either way loading ends. */
    method LoadComments(reply: Reply<seq<Comment>>)
      modifies this
      ensures !isLoading && !ShowsLoading()
      ensures comments == if reply.Ok() && reply.body.Some? then reply.body.value else old(comments)
      ensures newComment == old(newComment)
      ensures ShowsEmptyNotice() <==> |comments| == 0
    {
      if reply.Ok() && reply.body.Some? {
        comments := reply.body.value;
      }
      isLoading := false;
    }

    /** Typing into the text area. */
    method SetNewComment(text: string)
      modifies this
      ensures newComment == text
      ensures comments == old(comments) && isLoading == old(isLoading)
    {
      newComment := text;
    }

    /** `handleCommentSubmit`, the server answering `reply`. Nothing happens
        when the input is blank or no one is signed in. Otherwise the
        untrimmed input is posted; a saved comment is appended and the input
        cleared, and any failure leaves list and input as they were and
        raises the failure alert. */
    method HandleCommentSubmit(auth: Auth.AuthProvider, reply: Reply<Comment>) returns (sent: Option<Request>, alert: Option<string>)
      requires auth.Valid()
      modifies this, auth, auth.store
      ensures auth.Valid()
      ensures auth.store.entries - {Auth.TokenKey} == old(auth.store.entries) - {Auth.TokenKey}
      ensures isLoading == old(isLoading)
      ensures Text.IsBlank(old(newComment)) || old(auth.user).None? ==>
        && sent.None? && alert.None?
        && comments == old(comments) && newComment == old(newComment)
        && unchanged(auth, auth.store)
      ensures !Text.IsBlank(old(newComment)) && old(auth.user).Some? ==>
        && sent.Some?
        && sent.value.verb == "POST"
        && sent.value.url == apiUrl + "/api/posts/" + postId + "/comments"
        && sent.value.form == [("content", old(newComment))]
        && sent.value.headers == Auth.WithBearer([], old(auth.token))
        && auth.Snapshot() == Auth.Step(old(auth.Snapshot()), Auth.Responded(reply.status), auth.decode)
        && (if reply.Ok() && reply.body.Some?
            then comments == old(comments) + [reply.body.value] && newComment == "" && alert.None?
            else comments == old(comments) && newComment == old(newComment) && alert == Some(SubmitFailedMessage))
    {
      Text.TrimEmptyIffBlank(newComment);
      if Text.Trim(newComment) == "" || auth.user.None? {
        return None, None;
      }
      var options := new Auth.RequestInit("POST", [], [("content", newComment)]);
      var request, outcome := auth.FetchWithAuth(apiUrl + "/api/posts/" + postId + "/comments", options, reply.status);
      sent := Some(request);
      if outcome.Failure? || !reply.Ok() || reply.body.None? {
        return sent, Some(SubmitFailedMessage);
      }
      comments := comments + [reply.body.value];
      newComment := "";
      alert := None;
    }

    /** `handleDeleteComment(commentId)`: a declined confirmation sends
        nothing; a successful delete drops the comments with that id and
        keeps the others in order; a failed one changes nothing but raises
        the failure alert. */
    method HandleDeleteComment(auth: Auth.AuthProvider, commentId: string, confirmed: bool, status: int)
      returns (sent: Option<Request>, alert: Option<string>)
      requires auth.Valid()
      modifies this, auth, auth.store
      ensures auth.Valid()
      ensures auth.store.entries - {Auth.TokenKey} == old(auth.store.entries) - {Auth.TokenKey}
      ensures newComment == old(newComment) && isLoading == old(isLoading)
      ensures !confirmed ==> sent.None? && alert.None? && comments == old(comments) && unchanged(auth, auth.store)
      ensures confirmed ==>
        && sent.Some?
        && sent.value.verb == "DELETE"
        && sent.value.url == apiUrl + "/api/comments/" + commentId
        && sent.value.headers == Auth.WithBearer([], old(auth.token))
        && auth.Snapshot() == Auth.Step(old(auth.Snapshot()), Auth.Responded(status), auth.decode)
        && (if 200 <= status <= 299
            then comments == Remaining(old(comments), commentId) && alert.None?
            else comments == old(comments) && alert == Some(DeleteFailedMessage))
    {
      if !confirmed {
        return None, None;
      }
      var options := new Auth.RequestInit("DELETE", [], []);
      var request, outcome := auth.FetchWithAuth(apiUrl + "/api/comments/" + commentId, options, status);
      sent := Some(request);
      if outcome.Failure? || !(200 <= status <= 299) {
        return sent, Some(DeleteFailedMessage);
      }
      comments := Remaining(comments, commentId);
      alert := None;
    }

    /** For each listed comment, in order, whether its delete control is shown. */
    function DeleteControls(user: Option<User>): (shown: seq<bool>)
      reads this
      ensures |shown| == |comments|
      ensures forall i | 0 <= i < |comments| ::
        shown[i] <==> user.Some? && (IsAdmin(user) || user.value.email == comments[i].authorEmail)
    {
      var cs := comments;
      seq(|cs|, i requires 0 <= i < |cs| => CanDelete(user, cs[i]))
    }
  }
}
