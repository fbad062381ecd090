/**
 * The JSON records the server returns and the components read. Every
 * optional string property is a `Field`; only the properties some core
 * component reads or writes are kept.
 */
module Records {
  import opened Js

  /** Identifiers as they appear in route parameters and JSON. */
  type Id = string

  /** A comment as the comment endpoints return it (`comment.comment` is its text). */
  datatype Comment = Comment(id: Id, userId: Id, text: string, createdAt: Field)

  /**
   * A post record. `comments`, `readTime` and `hideAuthor` are the extra
   * properties the "My Posts" list adds before handing a post to a card.
   */
  datatype Post = Post(
    id: Id,
    title: Field,
    description: Field,
    excerpt: Field,
    content: Field,
    imageUrl: Field,
    image: Field,
    fname: Field,
    lname: Field,
    author: Field,
    comments: Option<seq<Comment>>,
    readTime: Field,
    hideAuthor: bool)

  /** A user as the admin user list returns it. */
  datatype User = User(id: Id, fname: Prop, lname: Prop, email: Prop)

  /** A file chosen in a file input: its name and MIME type. */
  datatype File = File(name: string, mimeType: string)

  /** What `login`, `register` and `logout` resolve to; an absent `message` is `undefined`. */
  datatype ApiResult = ApiResult(success: bool, message: Field, redirectTo: Field)
}
