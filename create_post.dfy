/**
 * The new-post page (src/pages/CreatePost.jsx): the login redirect on mount,
 * the cover-image picker, the form reset, and the publish handler with its
 * two validation messages and its failure handling.
 */
module CreatePost {
  import opened Js
  import opened Text
  import opened Records
  import TiptapEditor

  const TitleMissing := "Please enter a title"
  const ContentMissing := "Please enter some content"
  const CreateFailed := "Failed to create post"
  const AuthRequired := "Authentication required. Please login first."
  const LoginPath := "/login"

  /** The `postData` handed to `createPost`. */
  datatype PostPayload = PostPayload(title: string, description: string, image: Option<File>)

  /** The mount effect: without a stored token the page sends the visitor to the login page. */
  function MountRedirect(storedToken: Field): (r: Option<Navigation>)
    ensures r.Some? <==> !Truthy(storedToken)
    ensures r.Some? ==> r.value == Go(LoginPath)
  {
    if Truthy(storedToken) then None else Some(Go(LoginPath))
  }

  /**
   * The two guards of `handlePublish`, title first: the message shown, or
   * `None` when the post may be sent.
   */
  function PublishCheck(title: string, content: string): (r: Option<string>)
    ensures r == Some(TitleMissing) <==> AllSpace(title)
    ensures r == Some(ContentMissing) <==> !AllSpace(title) && (content == "" || content == TiptapEditor.Placeholder)
    ensures r.None? <==> !AllSpace(title) && content != "" && content != TiptapEditor.Placeholder
  {
    TrimEmptyIffAllSpace(title);
    if Trim(title) == "" then Some(TitleMissing)
    else if content == "" || content == TiptapEditor.Placeholder then Some(ContentMissing)
    else None
  }

  /** An editor nobody typed into reports no content or the placeholder; both are refused. */
  lemma UntouchedEditorRefused(title: string)
    requires !AllSpace(title)
    ensures PublishCheck(title, "") == Some(ContentMissing)
    ensures PublishCheck(title, TiptapEditor.InitialContent(None)) == Some(ContentMissing)
  {
  }

  /** What a failed `createPost` leads to. */
  datatype FailureEffect = ToLogin | ShowError(message: string)

  /** The `catch` clause of `handlePublish`. */
  function PublishFailure(thrown: Thrown): (r: FailureEffect)
    ensures r == ToLogin <==> ErrorFieldOf(thrown) == Some(AuthRequired)
    ensures r.ShowError? ==> r.message != ""
    ensures r.ShowError? && Truthy(ErrorFieldOf(thrown)) ==> r.message == ErrorFieldOf(thrown).value
    ensures r.ShowError? && !Truthy(ErrorFieldOf(thrown)) ==> r.message == CreateFailed
  {
    var e := ErrorFieldOf(thrown);
    if e == Some(AuthRequired) then ToLogin else ShowError(OrElse(e, CreateFailed))
  }

  /**
   * A rejection with a bare string (what `createPost` throws when the server
   * answered with an `error` field) has no `error` property, so it never
   * leads to the login page and always shows the generic message.
   */
  lemma BareStringFailureShowsGenericMessage(text: string)
    ensures PublishFailure(ErrStr(text)) == ShowError(CreateFailed)
  {
  }

  /** The page's state. */
  class CreatePostForm {
    var title: string
    var content: string
    var image: Option<File>
    var imagePreview: Field
    var isLoading: bool
    var error: string
    var success: bool

    constructor ()
      ensures title == "" && content == "" && image == None && imagePreview == None
      ensures !isLoading && error == "" && !success
    {
      title := "";
      content := "";
      image := None;
      imagePreview := None;
      isLoading := false;
      error := "";
      success := false;
    }

    /** The publish button's `disabled`. */
    predicate PublishDisabled()
      reads this
    {
      isLoading
    }

    /** The title input's `onChange`. */
    method SetTitle(text: string)
      modifies this`title
      ensures title == text
    {
      title := text;
    }

    /** The editor's `onUpdate`, which reports its HTML. */
    method SetContent(html: string)
      modifies this`content
      ensures content == html
    {
      content := html;
    }

    /** `handleImageUpload`: a chosen file is kept and a read for its preview starts. */
    method HandleImageUpload(file: Option<File>) returns (reading: bool)
      modifies this`image
      ensures reading <==> file.Some?
      ensures file.Some? ==> image == file
      ensures file.None? ==> image == old(image)
    {
      if file.Some? {
        image := file;
        return true;
      }
      return false;
    }

    /**
     * `reader.onloadend`, which also fires after a failed read: `result` is
     * the data URL, or None for the `null` a failed read leaves, and it
     * becomes the preview either way.
     */
    method ReaderLoadEnd(result: Field)
      modifies this`imagePreview
      ensures imagePreview == result
    {
      imagePreview := result;
    }

    /** `removeImage()`. */
    method RemoveImage()
      modifies this`image, this`imagePreview
      ensures image == None && imagePreview == None
    {
      image := None;
      imagePreview := None;
    }

    /** `resetForm()`: everything but `isLoading` goes back to its initial value. */
    method ResetForm()
      modifies this`title, this`content, this`image, this`imagePreview, this`success, this`error
      ensures title == "" && content == "" && image == None && imagePreview == None
      ensures !success && error == ""
    {
      title := "";
      content := "";
      image := None;
      imagePreview := None;
      success := false;
      error := "";
    }

    /**
     * `handlePublish()`, with `response` the settled `createPost` call.
     * Returns the payload sent, if any, and the navigation made, if any.
     */
    method HandlePublish(response: Outcome<()>) returns (request: Option<PostPayload>, nav: Option<Navigation>)
      modifies this`isLoading, this`error, this`success
      ensures var check := PublishCheck(old(title), old(content));
        check.Some? ==>
          request == None && nav == None && error == check.value
          && isLoading == old(isLoading) && success == old(success)
      ensures PublishCheck(old(title), old(content)).None? ==>
        request == Some(PostPayload(old(title), old(content), old(image))) && !PublishDisabled()
      ensures PublishCheck(old(title), old(content)).None? && response.Ok? ==>
        success && error == "" && nav == None
      ensures PublishCheck(old(title), old(content)).None? && response.Fail? ==>
        success == old(success)
        && (PublishFailure(response.thrown) == ToLogin ==> nav == Some(Go(LoginPath)) && error == "")
        && (PublishFailure(response.thrown).ShowError? ==>
              nav == None && error == PublishFailure(response.thrown).message)
    {
      var check := PublishCheck(title, content);
      if check.Some? {
        error := check.value;
        return None, None;
      }
      isLoading := true;
      error := "";
      request := Some(PostPayload(title, content, image));
      nav := None;
      if response.Ok? {
        success := true;
      } else {
        var effect := PublishFailure(response.thrown);
        if effect.ToLogin? {
          nav := Some(Go(LoginPath));
        } else {
          error := effect.message;
        }
      }
      isLoading := false;
    }
  }
}
