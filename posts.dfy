/**
 * Posts and comments of the blog screens, with the fields the screens
 * read or change; author, media and dates are only displayed.
 */
module Posts {
  import opened Js

  /** A post: its id, its react count, whether the admin reacted, and its comment count. */
  datatype Post = Post(id: string, reacts: int, reacted: bool, commentAmount: int)

  /**
   * A comment: its id, its post, its text, its reply count, and its
   * parent's id (absent or empty for a top-level comment).
   */
  datatype Comment = Comment(id: string, postId: string, comment: string, replies: int, parentId: Val)

  /** `comment.parentId` is truthy: the comment is a reply. */
  predicate IsReply(c: Comment)
  {
    Truthy(c.parentId)
  }
}
