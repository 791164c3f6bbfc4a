/** The "my posts" page: the signed-in user's posts, a loading flag, a
    redirect for visitors, and per post either a delete button or a
    "cannot delete" badge. Its requests are plain fetches carrying
    `Bearer ${token}` by hand, so a 401 here does not sign anyone out. */
module MyPosts {
  import opened Common
  import Lists
  import Auth

  const LoginPath := "/login"
  const DeleteFailedMessage := "게시물 삭제에 실패했습니다."

  datatype Post = Post(id: string, title: string, imageUrl: string, authorEmail: string, createdAt: string, isViolation: bool)

  datatype DeleteControl = DeleteButton | CannotDeleteBadge

  /** The three-way rule: administrators may always delete; anyone else
      may delete unless the post is flagged as a violation. */
  function Control(user: Option<User>, post: Post): DeleteControl {
    if IsAdmin(user) then DeleteButton
    else if post.isViolation then CannotDeleteBadge
    else DeleteButton
  }

  lemma ControlRule(user: Option<User>, post: Post)
    ensures Control(user, post) == CannotDeleteBadge <==> !IsAdmin(user) && post.isViolation
    ensures IsAdmin(user) ==> Control(user, post) == DeleteButton
    ensures !post.isViolation ==> Control(user, post) == DeleteButton
  {
  }

  datatype View = LoadingView | EmptyNotice | PostGrid(controls: seq<DeleteControl>)

  /** What the page renders. */
  function Render(isLoading: bool, authIsLoading: bool, posts: seq<Post>, user: Option<User>): (v: View)
    ensures v.LoadingView? <==> isLoading || authIsLoading
    ensures v.EmptyNotice? <==> !isLoading && !authIsLoading && |posts| == 0
    ensures v.PostGrid? ==>
      && |v.controls| == |posts|
      && forall i | 0 <= i < |posts| :: v.controls[i] == Control(user, posts[i])
  {
    if isLoading || authIsLoading then LoadingView
    else if |posts| == 0 then EmptyNotice
    else PostGrid(seq(|posts|, i requires 0 <= i < |posts| => Control(user, posts[i])))
  }

  function IdOf(p: Post): string {
    p.id
  }

  /** `posts.filter((p) => p._id !== postId)` */
  function Remaining(posts: seq<Post>, postId: string): seq<Post> {
    Lists.Without(posts, IdOf, postId)
  }

  /** Deleting removes exactly the posts with that id: every other post
      stays, as often as it was there, in its original order. */
  lemma RemainingIsExact(posts: seq<Post>, postId: string)
    ensures forall p :: p in Remaining(posts, postId) <==> p in posts && p.id != postId
    ensures forall p: Post :: p.id != postId ==> multiset(Remaining(posts, postId))[p] == multiset(posts)[p]
    ensures Lists.IsSubsequence(Remaining(posts, postId), posts)
  {
    Lists.WithoutIsExact(posts, IdOf, postId);
  }

  /** What the server says about a delete: no answer (the message of the
      network error), or a status with the `error` field of its JSON body
      ("" when the body has none or is not JSON). */
  datatype DeleteReply = NetworkError(message: string) | Answered(status: int, error: string)

  class MyPostsPage {
    var posts: seq<Post>
    var isLoading: bool
    const apiUrl: string

    constructor (apiUrl: string)
      ensures this.apiUrl == apiUrl && posts == [] && isLoading
    {
      this.apiUrl := apiUrl;
      posts := [];
      isLoading := true;
    }

    /** The effect that runs whenever the session changes: a visitor is
        sent to the login page without a fetch; with a truthy (non-empty)
        token the posts are fetched and loading ends; otherwise nothing
        happens yet. */
    method OnSessionChange(auth: Auth.AuthProvider, reply: Reply<seq<Post>>) returns (redirect: Option<string>, sent: Option<Request>)
      modifies this
      ensures !auth.isLoading && auth.user.None? ==>
        redirect == Some(LoginPath) && sent.None? && posts == old(posts) && isLoading == old(isLoading)
      ensures !(!auth.isLoading && auth.user.None?) ==> redirect.None?
      ensures !(!auth.isLoading && auth.user.None?) && !TruthyOption(auth.token) ==>
        sent.None? && posts == old(posts) && isLoading == old(isLoading)
      ensures !(!auth.isLoading && auth.user.None?) && TruthyOption(auth.token) ==>
        && sent == Some(Request("GET", apiUrl + "/api/users/me/posts", [("Authorization", BearerValue(auth.token))], []))
        && posts == (if reply.Ok() && reply.body.Some? then reply.body.value else old(posts))
        && !isLoading
    {
      if !auth.isLoading && auth.user.None? {
        return Some(LoginPath), None;
      }
      redirect, sent := None, None;
      if auth.token.Some? && auth.token.value != "" {
        sent := Some(Request("GET", apiUrl + "/api/users/me/posts", [("Authorization", BearerValue(auth.token))], []));
        if reply.Ok() && reply.body.Some? {
          posts := reply.body.value;
        }
        isLoading := false;
      }
    }

    /** `handleDelete` for the post `postId`, with the user's answer to the
        confirmation: a declined confirmation sends nothing; a successful
        delete drops the posts with that id and keeps the others in order;
        a failed one keeps the list and reports the server's error, or a
        default message. */
    method HandleDelete(token: Option<string>, postId: string, confirmed: bool, reply: DeleteReply)
      returns (sent: Option<Request>, alert: Option<string>)
      modifies this`posts
      ensures !confirmed ==> sent.None? && alert.None? && posts == old(posts)
      ensures confirmed ==>
        sent == Some(Request("DELETE", apiUrl + "/api/posts/" + postId, [("Authorization", BearerValue(token))], []))
      ensures confirmed && reply.Answered? && 200 <= reply.status <= 299 ==>
        posts == Remaining(old(posts), postId) && alert.None?
      ensures confirmed && reply.Answered? && !(200 <= reply.status <= 299) ==>
        posts == old(posts) && alert == Some(if reply.error != "" then reply.error else DeleteFailedMessage)
      ensures confirmed && reply.NetworkError? ==> posts == old(posts) && alert == Some(reply.message)
    {
      if !confirmed {
        return None, None;
      }
      sent := Some(Request("DELETE", apiUrl + "/api/posts/" + postId, [("Authorization", BearerValue(token))], []));
      match reply
      case NetworkError(message) =>
        alert := Some(message);
      case Answered(status, error) =>
        if !(200 <= status <= 299) {
          alert := Some(if error != "" then error else DeleteFailedMessage);
        } else {
          posts := Remaining(posts, postId);
          alert := None;
        }
    }
  }
}
