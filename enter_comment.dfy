/**
 * The comment composer: a draft that knows which post and which comment
 * it answers, and is posted only when its text is not blank.
 */
module EnterComment {
  import opened Js

  /** The draft: the comment it replies to (`Null` for none), its text, and its post. */
  datatype Draft = Draft(parentId: Val, comment: string, postId: string)

  /** A composer's call to its parent: post id, parent id or null, text. */
  datatype PostCall = PostCall(postId: string, parentId: Val, comment: string)

  /**
   * The draft the composer starts with, from the comment it replies to
   * (its id and its post): a falsy id becomes null. The draft is built
   * once, when the composer mounts.
   */
  function InitDraft(targetId: Val, postId: string): (d: Draft)
    ensures d.comment == "" && d.postId == postId
    ensures d.parentId == (if Truthy(targetId) then targetId else Null)
  {
    Draft(if Truthy(targetId) then targetId else Null, "", postId)
  }

  /** The send button is enabled exactly when the text is not blank. */
  predicate CanSend(d: Draft)
  {
    !IsBlank(d.comment)
  }

  /**
   * `handlePostComment`: a blank draft posts nothing and stays; otherwise
   * the draft's post, its parent or null, and its text are posted and the
   * text is cleared, whatever the outcome.
   */
  function Posted(d: Draft): (Option<PostCall>, Draft)
  {
    if IsBlank(d.comment) then (None, d)
    else (Some(PostCall(d.postId, if Truthy(d.parentId) then d.parentId else Null, d.comment)), d.(comment := ""))
  }

  /**
   * A post is made exactly when the send button is enabled; it carries
   * the draft's text and ids, a blank draft is unchanged, and after a post
   * the composer keeps its post and parent and cannot post again until
   * text is entered.
   */
  lemma PostedSpec(d: Draft)
    ensures Posted(d).0.Some? <==> CanSend(d)
    ensures CanSend(d) ==>
              Posted(d).0.value.comment == d.comment && Posted(d).0.value.postId == d.postId
              && Posted(d).1 == d.(comment := "") && !CanSend(Posted(d).1)
    ensures !CanSend(d) ==> Posted(d).1 == d
  {
    assert Trim("") == "";
  }

  /**
   * A composer that answers a comment posts that comment's id as parent,
   * one that answers the post itself posts null, and both post to the
   * post they were mounted for.
   */
  lemma PostedFromInitDraft(targetId: Val, postId: string, text: string)
    requires !IsBlank(text)
    ensures Posted(InitDraft(targetId, postId).(comment := text)).0
            == Some(PostCall(postId, if Truthy(targetId) then targetId else Null, text))
  {
  }

  /** The emoji picker appends the emoji to the text. */
  function EmojiAdded(d: Draft, emoji: string): (r: Draft)
    ensures r.comment == d.comment + emoji && r.(comment := d.comment) == d
  {
    d.(comment := d.comment + emoji)
  }

  /** The composer's draft. */
  class Composer {
    var draft: Draft

    constructor (targetId: Val, postId: string)
      ensures draft == InitDraft(targetId, postId)
    {
      draft := InitDraft(targetId, postId);
    }

    /** `handleChangeCommentInfo("comment", …)`. */
    method HandleChangeComment(text: string)
      modifies this
      ensures draft == old(draft).(comment := text)
    {
      draft := draft.(comment := text);
    }

    method HandleEmojiClick(emoji: string)
      modifies this
      ensures draft == EmojiAdded(old(draft), emoji)
    {
      draft := draft.(comment := draft.comment + emoji);
    }

    method HandlePostComment() returns (call: Option<PostCall>)
      modifies this
      ensures (call, draft) == Posted(old(draft))
    {
      if IsBlank(draft.comment) {
        return None;
      }
      call := Some(PostCall(draft.postId, if Truthy(draft.parentId) then draft.parentId else Null, draft.comment));
      draft := draft.(comment := "");
    }
  }
}
