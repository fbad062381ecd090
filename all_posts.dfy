/**
 * The signed-in user's own post list (src/pages/AllPosts.jsx): the fetch on
 * mount with its login redirects, and the record each post becomes before
 * it is handed to a "manage" card.
 */
module AllPosts {
  import opened Js
  import opened Text
  import opened Records
  import BlogCard
  import Auth

  const FetchFailed := "Failed to fetch posts"
  const LoginPath := "/login"
  const NotAuthenticated := "not authenticated"
  const SessionExpired := "Session expired"

  /** `error.message?.includes('not authenticated') || error.message?.includes('Session expired')`. */
  predicate SessionProblem(message: Field) {
    message.Some? && (Includes(message.value, NotAuthenticated) || Includes(message.value, SessionExpired))
  }

  /** A rejection with a bare string has no `message`, so it never counts as a session problem. */
  lemma BareStringIsNoSessionProblem(text: string)
    ensures !SessionProblem(MessageOf(ErrStr(text)))
  {
  }

  /** The object spread into each card: the list's own fields override the post's. */
  function CardRecord(p: Post): (r: Post)
    ensures r.id == p.id && r.title == p.title && r.imageUrl == p.imageUrl
    ensures r.image == p.imageUrl && r.excerpt == p.description && r.content == p.description
    ensures r.description == p.description && r.fname == p.fname && r.lname == p.lname && r.author == p.author
    ensures p.comments.Some? ==> r.comments == p.comments
    ensures p.comments.None? ==> r.comments == Some([])
    ensures Truthy(p.readTime) ==> r.readTime == p.readTime
    ensures !Truthy(p.readTime) ==> r.readTime == Some("")
    ensures r.hideAuthor
  {
    p.(image := p.imageUrl,
       excerpt := p.description,
       content := p.description,
       comments := Some(if p.comments.Some? then p.comments.value else []),
       readTime := Some(OrElse(p.readTime, "")),
       hideAuthor := true)
  }

  /**
   * A card in this list previews the description only: a post whose
   * description is empty shows no preview even when it has content.
   */
  lemma CardPreviewsDescription(p: Post)
    ensures Truthy(p.description) ==>
      BlogCard.PreviewText(CardRecord(p)) == BlogCard.Truncate(BlogCard.StripTags(p.description.value))
    ensures !Truthy(p.description) ==> BlogCard.PreviewText(CardRecord(p)) == ""
  {
    BlogCard.PreviewFromFirstSource(CardRecord(p));
  }

  /** The card's cover is `image_url`, else the default; the post's own `image` is overwritten. */
  lemma CardCoverIgnoresImage(p: Post)
    ensures BlogCard.CoverImage(CardRecord(p)) == OrElse(p.imageUrl, BlogCard.DefaultImage)
  {
  }

  /** Every card in this list opens the post's manage route. */
  lemma CardsOpenManageRoute(pathname: string, p: Post)
    ensures BlogCard.ClickRoute(pathname, BlogCard.Manage, CardRecord(p).id) == "/post/" + p.id
  {
  }

  /** What the page shows. */
  datatype PageView = Spinner | EmptyState(error: string) | PostCards(error: string, cards: seq<Post>)

  function ViewOf(loading: bool, error: string, posts: seq<Post>): (r: PageView)
    ensures r == Spinner <==> loading
    ensures r.EmptyState? <==> !loading && posts == []
    ensures r.PostCards? ==> |r.cards| == |posts| && forall i :: 0 <= i < |posts| ==> r.cards[i] == CardRecord(posts[i])
    ensures !r.Spinner? ==> r.error == error
  {
    if loading then Spinner
    else if posts == [] then EmptyState(error)
    else PostCards(error, seq(|posts|, i requires 0 <= i < |posts| => CardRecord(posts[i])))
  }

  /** The page's state. */
  class AllPostsPage {
    var posts: seq<Post>
    var loading: bool
    var error: string

    constructor ()
      ensures posts == [] && loading && error == ""
    {
      posts := [];
      loading := true;
      error := "";
    }

    function View(): PageView
      reads this
    {
      ViewOf(loading, error, posts)
    }

    /**
     * The mount effect: `authInfo` is what `getAuthInfo()` returned and
     * `response` the settled `getPostOfUser` call (made only with a session).
     * Returns whose posts were asked for and the navigation made.
     */
    method FetchUserPosts(authInfo: Option<Auth.AuthInfo>, response: Outcome<Payload<Post>>)
      returns (requestedFor: Option<Id>, nav: Option<Navigation>)
      modifies this`posts, this`loading, this`error
      ensures !loading
      ensures authInfo.None? ==>
        requestedFor == None && nav == Some(Go(LoginPath)) && posts == old(posts) && error == old(error)
      ensures authInfo.Some? ==> requestedFor == Some(authInfo.value.id)
      ensures authInfo.Some? && response.Ok? ==>
        posts == ListOrEmpty(response.value) && nav == None && error == old(error)
      ensures authInfo.Some? && response.Fail? ==> posts == old(posts)
      ensures authInfo.Some? && response.Fail? && SessionProblem(MessageOf(response.thrown)) ==>
        nav == Some(Go(LoginPath)) && error == old(error)
      ensures authInfo.Some? && response.Fail? && !SessionProblem(MessageOf(response.thrown)) ==>
        nav == None && error == OrElse(MessageOf(response.thrown), FetchFailed)
    {
      requestedFor, nav := None, None;
      if authInfo.None? {
        nav := Some(Go(LoginPath));
      } else {
        requestedFor := Some(authInfo.value.id);
        match response {
          case Ok(data) =>
            posts := ListOrEmpty(data);
          case Fail(t) =>
            if SessionProblem(MessageOf(t)) {
              nav := Some(Go(LoginPath));
            } else {
              error := OrElse(MessageOf(t), FetchFailed);
            }
        }
      }
      loading := false;
    }
  }
}
