/**
 * The read-only post body (src/components/PostContent.jsx): which text the
 * editor shows, the cover image and the author line.
 */
module PostContent {
  import opened Js
  import opened Records
  import BlogCard

  const UnknownAuthor := "Unknown Author"

  /** `post.content || post.description || ''`: the HTML the read-only editor shows. */
  function DisplayedContent(p: Post): (r: string)
    ensures Truthy(p.content) ==> r == p.content.value
    ensures !Truthy(p.content) && Truthy(p.description) ==> r == p.description.value
    ensures !Truthy(p.content) && !Truthy(p.description) ==> r == ""
  {
    OrElse(p.content, OrElse(p.description, ""))
  }

  /** The "By ..." line: the full name when both parts are there, else `author`, else a default. */
  function AuthorLine(p: Post): (r: string)
    ensures r != ""
    ensures Truthy(p.fname) && Truthy(p.lname) ==> r == p.fname.value + " " + p.lname.value
    ensures !(Truthy(p.fname) && Truthy(p.lname)) && Truthy(p.author) ==> r == p.author.value
    ensures !(Truthy(p.fname) && Truthy(p.lname)) && !Truthy(p.author) ==> r == UnknownAuthor
  {
    if Truthy(p.fname) && Truthy(p.lname) then p.fname.value + " " + p.lname.value
    else OrElse(p.author, UnknownAuthor)
  }

  /** What the component shows for one post; the editor is never editable. */
  datatype PostView = PostView(author: string, cover: string, content: string, editable: bool)

  /** The component's output: nothing for a null post. */
  function Render(post: Option<Post>): (r: Option<PostView>)
    ensures r.Some? <==> post.Some?
    ensures r.Some? ==> !r.value.editable && r.value.author != "" && r.value.cover != ""
    ensures r.Some? ==> r.value.author == AuthorLine(post.value)
    ensures r.Some? ==> r.value.content == DisplayedContent(post.value)
    ensures r.Some? ==> r.value.cover == BlogCard.CoverImage(post.value)
  {
    if post.None? then None
    else Some(PostView(AuthorLine(post.value), BlogCard.CoverImage(post.value), DisplayedContent(post.value), false))
  }

  /**
   * The page and the card disagree about a post's text: the page prefers
   * `content`, the card's preview prefers `description`.
   */
  lemma PageAndCardPreferDifferentFields(p: Post)
    requires Truthy(p.content) && Truthy(p.description) && p.content != p.description
    requires '<' !in p.description.value && |p.description.value| <= BlogCard.PreviewLimit
    ensures DisplayedContent(p) == p.content.value
    ensures BlogCard.PreviewText(p) == p.description.value
  {
    BlogCard.ShortPlainDescriptionShownVerbatim(p);
  }
}
