/**
 * The comment thread under a post (src/components/Comments.jsx): the list
 * edits made after each request, the submit / edit / delete handlers, the
 * edit session, and which controls a viewer sees.
 */
module Comments {
  import opened Js
  import opened Text
  import opened Seqs
  import opened Records

  const PostFailed := "Failed to post comment"
  const UpdateFailed := "Failed to update comment"
  const DeleteFailed := "Failed to delete comment"

  /** The `user` prop: whoever is looking at the thread. */
  datatype Viewer = Viewer(id: Id, role: Field)

  /** `createComment(postId, text)`. */
  datatype CreateRequest = CreateRequest(postId: Id, text: string)

  /** `updateComment(commentId, text)`. */
  datatype UpdateRequest = UpdateRequest(commentId: Id, text: string)

  /** `prev.map(comment => comment.id === id ? updated : comment)`. */
  function ReplaceById(cs: seq<Comment>, id: Id, updated: Comment): (r: seq<Comment>)
    ensures |r| == |cs|
    ensures forall i :: 0 <= i < |cs| && cs[i].id == id ==> r[i] == updated
    ensures forall i :: 0 <= i < |cs| && cs[i].id != id ==> r[i] == cs[i]
  {
    if cs == [] then []
    else [if cs[0].id == id then updated else cs[0]] + ReplaceById(cs[1..], id, updated)
  }

  /** The number of comments in `cs` whose id is `id`. */
  function CountId(cs: seq<Comment>, id: Id): nat {
    if cs == [] then 0 else (if cs[0].id == id then 1 else 0) + CountId(cs[1..], id)
  }

  /** `prev.filter(comment => comment.id !== id)`. */
  function RemoveById(cs: seq<Comment>, id: Id): (r: seq<Comment>)
    ensures IsSubsequence(r, cs)
    ensures forall c :: c in r <==> c in cs && c.id != id
    ensures |r| == |cs| - CountId(cs, id)
  {
    if cs == [] then []
    else if cs[0].id == id then
      var r := RemoveById(cs[1..], id);
      assert forall c :: c in cs <==> c == cs[0] || c in cs[1..];
      r
    else
      var rest := RemoveById(cs[1..], id);
      var r := [cs[0]] + rest;
      assert r[1..] == rest;
      assert forall c :: c in cs <==> c == cs[0] || c in cs[1..];
      r
  }

  /** Removing an id that no comment has changes nothing. */
  lemma {:induction false} RemoveAbsentId(cs: seq<Comment>, id: Id)
    requires forall c :: c in cs ==> c.id != id
    ensures RemoveById(cs, id) == cs
  {
    if cs != [] {
      assert forall c :: c in cs[1..] ==> c in cs;
      RemoveAbsentId(cs[1..], id);
    }
  }

  /** Replacing by an id that no comment has changes nothing. */
  lemma {:induction false} ReplaceAbsentId(cs: seq<Comment>, id: Id, updated: Comment)
    requires forall c :: c in cs ==> c.id != id
    ensures ReplaceById(cs, id, updated) == cs
  {
    if cs != [] {
      assert cs[0] in cs;
      assert forall c :: c in cs[1..] ==> c in cs;
      ReplaceAbsentId(cs[1..], id, updated);
    }
  }

  /** The edit and delete buttons shown beside one comment. */
  datatype Controls = Controls(edit: bool, delete: bool)

  /**
   * Controls beside comment `c`: none while `c` is the one being edited
   * (its editor is shown instead); edit for its owner; delete only for an
   * owner who is also an admin.
   */
  function VisibleControls(user: Option<Viewer>, editingId: Option<Id>, c: Comment): (r: Controls)
    ensures r.delete ==> r.edit
    ensures r.edit <==> editingId != Some(c.id) && user.Some? && user.value.id == c.userId
    ensures r.delete <==> r.edit && user.value.role == Some("admin")
    ensures user.None? ==> !r.edit && !r.delete
  {
    if editingId == Some(c.id) then Controls(false, false)
    else
      var owner := user.Some? && user.value.id == c.userId;
      Controls(owner, owner && user.value.role == Some("admin"))
  }

  /** An admin who does not own a comment is offered no control over it. */
  lemma AdminNeedsOwnership(user: Viewer, editingId: Option<Id>, c: Comment)
    requires user.role == Some("admin") && user.id != c.userId
    ensures VisibleControls(Some(user), editingId, c) == Controls(false, false)
  {
  }

  /** The component's state. */
  class CommentThread {
    const postId: Id
    const user: Option<Viewer>
    var comments: seq<Comment>
    var newComment: string
    var isSubmitting: bool
    var commentError: string
    var editingCommentId: Option<Id>
    var editCommentText: string

    constructor (postId: Id, initialComments: seq<Comment>, user: Option<Viewer>)
      ensures this.postId == postId && this.user == user
      ensures comments == initialComments && newComment == "" && !isSubmitting && commentError == ""
      ensures editingCommentId == None && editCommentText == ""
    {
      this.postId := postId;
      this.user := user;
      comments := initialComments;
      newComment := "";
      isSubmitting := false;
      commentError := "";
      editingCommentId := None;
      editCommentText := "";
    }

    /** The "Post Comment" button's `disabled`. */
    predicate SubmitDisabled()
      reads this
      ensures SubmitDisabled() <==> isSubmitting || AllSpace(newComment)
    {
      TrimEmptyIffAllSpace(newComment);
      isSubmitting || Trim(newComment) == ""
    }

    /** The new-comment textarea's `onChange`. */
    method TypeComment(text: string)
      modifies this`newComment
      ensures newComment == text
    {
      newComment := text;
    }

    /**
     * `handleSubmitComment`, with `response` the settled `createComment`
     * call. A blank comment makes no request and changes nothing.
     */
    method SubmitComment(response: Outcome<Comment>) returns (request: Option<CreateRequest>)
      modifies this`comments, this`newComment, this`isSubmitting, this`commentError
      ensures Trim(old(newComment)) == "" ==>
        request == None && comments == old(comments) && newComment == old(newComment)
        && isSubmitting == old(isSubmitting) && commentError == old(commentError)
      ensures Trim(old(newComment)) != "" ==> request == Some(CreateRequest(postId, old(newComment))) && !isSubmitting
      ensures Trim(old(newComment)) != "" && response.Ok? ==>
        comments == old(comments) + [response.value] && newComment == "" && commentError == ""
      ensures Trim(old(newComment)) != "" && response.Fail? ==>
        comments == old(comments) && newComment == old(newComment)
        && commentError == OrElse(MessageOf(response.thrown), PostFailed)
    {
      if Trim(newComment) == "" {
        return None;
      }
      isSubmitting := true;
      commentError := "";
      request := Some(CreateRequest(postId, newComment));
      match response {
        case Ok(created) =>
          comments := comments + [created];
          newComment := "";
        case Fail(err) =>
          commentError := OrElse(MessageOf(err), PostFailed);
      }
      isSubmitting := false;
    }

    /** `startEditing(comment)`. */
    method StartEditing(c: Comment)
      modifies this`editingCommentId, this`editCommentText
      ensures editingCommentId == Some(c.id) && editCommentText == c.text
    {
      editingCommentId := Some(c.id);
      editCommentText := c.text;
    }

    /** The edit textarea's `onChange`. */
    method TypeEdit(text: string)
      modifies this`editCommentText
      ensures editCommentText == text
    {
      editCommentText := text;
    }

    /** `cancelEditing()`. */
    method CancelEditing()
      modifies this`editingCommentId, this`editCommentText
      ensures editingCommentId == None && editCommentText == ""
    {
      editingCommentId := None;
      editCommentText := "";
    }

    /** `handleEditComment(commentId)`, with `response` the settled `updateComment` call. */
    method EditComment(commentId: Id, response: Outcome<Comment>) returns (request: UpdateRequest)
      modifies this`comments, this`commentError, this`editingCommentId, this`editCommentText
      ensures request == UpdateRequest(commentId, old(editCommentText))
      ensures response.Ok? ==>
        comments == ReplaceById(old(comments), commentId, response.value)
        && editingCommentId == None && editCommentText == "" && commentError == old(commentError)
      ensures response.Fail? ==>
        comments == old(comments) && editingCommentId == old(editingCommentId)
        && editCommentText == old(editCommentText)
        && commentError == OrElse(MessageOf(response.thrown), UpdateFailed)
    {
      request := UpdateRequest(commentId, editCommentText);
      match response {
        case Ok(updated) =>
          comments := ReplaceById(comments, commentId, updated);
          editingCommentId := None;
          editCommentText := "";
        case Fail(err) =>
          commentError := OrElse(MessageOf(err), UpdateFailed);
      }
    }

    /**
     * `handleDeleteComment(commentId)`: `confirmed` is the answer to
     * `window.confirm`, `response` the settled `deleteComment` call.
     */
    method DeleteComment(commentId: Id, confirmed: bool, response: Outcome<bool>) returns (requested: bool)
      modifies this`comments, this`commentError
      ensures requested == confirmed
      ensures !confirmed ==> comments == old(comments) && commentError == old(commentError)
      ensures confirmed && response.Ok? ==>
        comments == RemoveById(old(comments), commentId) && commentError == old(commentError)
      ensures confirmed && response.Fail? ==>
        comments == old(comments) && commentError == OrElse(MessageOf(response.thrown), DeleteFailed)
    {
      if !confirmed {
        return false;
      }
      requested := true;
      match response {
        case Ok(_) =>
          comments := RemoveById(comments, commentId);
        case Fail(err) =>
          commentError := OrElse(MessageOf(err), DeleteFailed);
      }
    }
  }
}
