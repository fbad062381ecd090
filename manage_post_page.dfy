/**
 * The owner's page for one post (src/pages/ManagePostPage.jsx): loading the
 * post and its comments, the edit form seeded from the displayed content,
 * saving, cancelling, deleting, and what the page shows in each state.
 */
module ManagePostPage {
  import opened Js
  import opened Records
  import opened Auth
  import Comments
  import PostContent
  import TiptapEditor

  const FetchFailed := "Failed to fetch post"
  const UpdateFailed := "Failed to update post"
  const DeleteFailed := "Failed to delete post"
  const AfterDeletePath := "/dashboard/posts"
  /** What destructuring `user` out of a null `getAuthInfo()` throws (engine-dependent text). */
  const NullUserMessage := "Cannot destructure property 'user' of 'getAuthInfo(...)' as it is null."

  /** The `editForm` state. */
  datatype EditForm = EditForm(title: Field, description: string)

  const EmptyForm := EditForm(Some(""), "")

  /**
   * The `user` passed to the comment thread: `getAuthInfo()` has no `user`
   * property, so it is always undefined, and with no session the render throws.
   */
  function CommentsViewer(info: Option<AuthInfo>): (r: Outcome<Option<Comments.Viewer>>)
    ensures r.Ok? <==> info.Some?
    ensures r.Ok? ==> r.value == None
    ensures r.Fail? ==> r.thrown == NewError(NullUserMessage)
  {
    if info.None? then Fail(NewError(NullUserMessage)) else Ok(None)
  }

  /** On this page no comment ever offers an edit or delete control. */
  lemma NoCommentControlsOnManagePage(info: Option<AuthInfo>, editingId: Option<Id>, c: Comment)
    requires info.Some?
    ensures Comments.VisibleControls(CommentsViewer(info).value, editingId, c) == Comments.Controls(false, false)
  {
  }

  /** What the page renders. */
  datatype PageView = LoadingView | ErrorView(message: string) | Blank | Editing(form: EditForm) | Showing(post: Post)

  /** The render's early returns, in order: loading, then error, then a missing post. */
  function ViewOf(loading: bool, error: string, post: Option<Post>, isEditing: bool, form: EditForm): (r: PageView)
    ensures r == LoadingView <==> loading
    ensures r.ErrorView? <==> !loading && error != ""
    ensures r.ErrorView? ==> r.message == error
    ensures r == Blank <==> !loading && error == "" && post.None?
    ensures r.Editing? <==> !loading && error == "" && post.Some? && isEditing
    ensures r.Editing? ==> r.form == form
    ensures r.Showing? <==> !loading && error == "" && post.Some? && !isEditing
    ensures r.Showing? ==> r.post == post.value
  {
    if loading then LoadingView
    else if error != "" then ErrorView(error)
    else if post.None? then Blank
    else if isEditing then Editing(form)
    else Showing(post.value)
  }

  /** The content the edit form's editor starts with. */
  function EditorStart(form: EditForm): (r: string)
    ensures form.description != "" ==> r == form.description
    ensures form.description == "" ==> r == TiptapEditor.Placeholder
  {
    TiptapEditor.InitialContent(Some(form.description))
  }

  /** The page's state. */
  class ManagePostPage {
    const id: Id
    var post: Option<Post>
    var loading: bool
    var error: string
    var comments: seq<Comment>
    var isEditing: bool
    var editForm: EditForm

    constructor (id: Id)
      ensures this.id == id && post == None && loading && error == "" && comments == []
      ensures !isEditing && editForm == EmptyForm
    {
      this.id := id;
      post := None;
      loading := true;
      error := "";
      comments := [];
      isEditing := false;
      editForm := EmptyForm;
    }

    /** The page's current render. */
    function View(): PageView
      reads this
    {
      ViewOf(loading, error, post, isEditing, editForm)
    }

    /**
     * The fetch effect: `postResponse` is the settled `fetchPostById(id)`;
     * when it succeeds the comments are asked for, and `commentsResponse`
     * is that call's outcome. Returns whether the comments were asked for.
     */
    method Load(postResponse: Outcome<Option<Post>>, commentsResponse: Outcome<seq<Comment>>)
      returns (commentsRequested: bool)
      modifies this`post, this`loading, this`error, this`comments
      ensures !loading
      ensures commentsRequested <==> postResponse.Ok?
      ensures postResponse.Ok? ==> post == postResponse.value
      ensures postResponse.Fail? ==>
        post == old(post) && comments == old(comments)
        && error == OrElse(MessageOf(postResponse.thrown), FetchFailed)
      ensures postResponse.Ok? && commentsResponse.Ok? ==> comments == commentsResponse.value && error == ""
      ensures postResponse.Ok? && commentsResponse.Fail? ==>
        comments == old(comments) && error == OrElse(MessageOf(commentsResponse.thrown), FetchFailed)
      ensures postResponse.Fail? || commentsResponse.Fail? ==> View().ErrorView?
      ensures postResponse.Ok? && commentsResponse.Ok? ==> View() != LoadingView && !View().ErrorView?
    {
      loading := true;
      error := "";
      commentsRequested := false;
      match postResponse {
        case Fail(err) =>
          error := OrElse(MessageOf(err), FetchFailed);
        case Ok(data) =>
          post := data;
          commentsRequested := true;
          match commentsResponse {
            case Ok(cs) =>
              comments := cs;
            case Fail(err) =>
              error := OrElse(MessageOf(err), FetchFailed);
          }
      }
      loading := false;
    }

    /** `handleEdit()`: the form starts from the post's title and the content the page shows. */
    method HandleEdit()
      requires post.Some?
      modifies this`editForm, this`isEditing
      ensures isEditing
      ensures editForm == EditForm(post.value.title, PostContent.DisplayedContent(post.value))
    {
      editForm := EditForm(post.value.title, OrElse(post.value.content, OrElse(post.value.description, "")));
      isEditing := true;
    }

    /** The title input's `onChange`. */
    method SetEditTitle(text: string)
      modifies this`editForm
      ensures editForm == old(editForm).(title := Some(text))
    {
      editForm := editForm.(title := Some(text));
    }

    /** The editor's `onUpdate`. */
    method SetEditDescription(html: string)
      modifies this`editForm
      ensures editForm == old(editForm).(description := html)
    {
      editForm := editForm.(description := html);
    }

    /**
     * `handleUpdate()`, with `response` the settled `updatePost` call.
     * Returns the form sent and the alert shown, if any.
     */
    method HandleUpdate(response: Outcome<Option<Post>>) returns (request: EditForm, alert: Option<string>)
      modifies this`post, this`isEditing, this`editForm
      ensures request == old(editForm)
      ensures response.Ok? ==> post == response.value && !isEditing && editForm == EmptyForm && alert == None
      ensures response.Fail? ==>
        post == old(post) && isEditing == old(isEditing) && editForm == old(editForm)
        && alert == Some(OrElse(MessageOf(response.thrown), UpdateFailed))
    {
      request := editForm;
      match response {
        case Ok(updated) =>
          post := updated;
          isEditing := false;
          editForm := EmptyForm;
          alert := None;
        case Fail(err) =>
          alert := Some(OrElse(MessageOf(err), UpdateFailed));
      }
    }

    /** `handleCancel()`. */
    method HandleCancel()
      modifies this`isEditing, this`editForm
      ensures !isEditing && editForm == EmptyForm
    {
      isEditing := false;
      editForm := EmptyForm;
    }

    /**
     * `handleDelete()`: `confirmed` is the answer to `window.confirm` and
     * `response` the settled `deletePostById` call. The page's state is not
     * touched; the result is the navigation or the alert.
     */
    method HandleDelete(confirmed: bool, response: Outcome<bool>)
      returns (requested: bool, nav: Option<Navigation>, alert: Option<string>)
      ensures requested == confirmed
      ensures !confirmed ==> nav == None && alert == None
      ensures confirmed && response.Ok? ==> nav == Some(Go(AfterDeletePath)) && alert == None
      ensures confirmed && response.Fail? ==>
        nav == None && alert == Some(OrElse(MessageOf(response.thrown), DeleteFailed))
    {
      if !confirmed {
        return false, None, None;
      }
      match response {
        case Ok(_) =>
          return true, Some(Go(AfterDeletePath)), None;
        case Fail(err) =>
          return true, None, Some(OrElse(MessageOf(err), DeleteFailed));
      }
    }
  }
}
