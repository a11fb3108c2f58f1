/**
 * A comment thread: the top-level list under a post, the replies of the
 * one comment whose replies are open, and the comment being replied to.
 */
module Comments {
  import opened Js
  import opened Lists
  import opened Posts

  /**
   * A thread's state: the comment whose replies are open ("" for none), the
   * comment being replied to (`None` stands for both "unset" and the empty
   * object the screen resets it to: neither has an id), and the loaded replies.
   */
  datatype Thread = Thread(openId: string, target: Option<Comment>, replies: seq<Comment>)

  const Closed := Thread("", None, [])

  /**
   * The replies toggle, then the load that the open-comment effect starts:
   * the open comment toggles between `commentId` and none, the target is
   * dropped, the replies are emptied and, when a comment is now open and
   * its replies load, they are shown.
   */
  function RepliesToggled(t: Thread, commentId: string, status: int, got: seq<Comment>): Thread
  {
    var open := if t.openId == commentId then "" else commentId;
    Thread(open, None, if open != "" && status < 400 then got else [])
  }

  /**
   * The reply button of a comment without replies: it toggles the target
   * between that comment and none and closes the open replies without
   * clearing them (the effect does not load for the empty id).
   */
  function ReplyClicked(t: Thread, c: Comment): Thread
  {
    var same := t.target.Some? && t.target.value.id == c.id;
    Thread("", if same then None else Some(c), t.replies)
  }

  /** The effect on `toggleStatus`: hiding the thread clears the replies and the open comment. */
  function Hidden(t: Thread, toggleStatus: bool): Thread
  {
    if toggleStatus then t else t.(openId := "", replies := [])
  }

  /** The delete's success callback: a reply leaves the list; a top-level comment closes the replies. */
  function DeletedCallback(t: Thread, deleted: Comment): Thread
  {
    if IsReply(deleted) then t.(replies := Filter(t.replies, (x: Comment) => x.id != deleted.id))
    else t.(openId := "", replies := [])
  }

  /** The post's success callback: a new reply is appended to the shown replies. */
  function PostedCallback(t: Thread, created: Comment): Thread
  {
    if IsReply(created) then t.(replies := t.replies + [created]) else t
  }

  /**
   * Toggling the replies of the same comment twice closes them and leaves
   * none shown; opening another comment shows only its loaded replies.
   */
  lemma RepliesToggledSpec(t: Thread, commentId: string, status: int, got: seq<Comment>)
    ensures var u := RepliesToggled(t, commentId, status, got);
            u.target.None?
            && (u.openId == "" ==> u.replies == [])
            && (t.openId != commentId && commentId != "" ==> u.openId == commentId && u.replies == (if status < 400 then got else []))
    ensures RepliesToggled(RepliesToggled(t, commentId, status, got), commentId, status, got).openId
            == (if t.openId == commentId then commentId else "")
    ensures t.openId != commentId ==>
              RepliesToggled(RepliesToggled(t, commentId, status, got), commentId, status, got) == Closed
  {
  }

  /**
   * The reply button targets a comment exactly when it did not already
   * target it, and a second click on the same comment restores the
   * thread when it had no target.
   */
  lemma ReplyClickedSpec(t: Thread, c: Comment)
    ensures ReplyClicked(t, c).target == Some(c) <==> !(t.target.Some? && t.target.value.id == c.id)
    ensures ReplyClicked(t, c).openId == "" && ReplyClicked(t, c).replies == t.replies
    ensures t.openId == "" && t.target.None? ==> ReplyClicked(ReplyClicked(t, c), c) == t
  {
  }

  /**
   * Posting a reply and deleting it again gives back the shown replies
   * when its id was not shown; deleting keeps the other replies in order.
   */
  lemma PostThenDeleteRestores(t: Thread, c: Comment)
    requires IsReply(c)
    requires forall i :: 0 <= i < |t.replies| ==> t.replies[i].id != c.id
    ensures DeletedCallback(PostedCallback(t, c), c) == t
  {
    var keep := (x: Comment) => x.id != c.id;
    FilterAppend(t.replies, [c], keep);
    FilterKeepsAll(t.replies, keep);
    assert Filter([c], keep) == [];
  }

  /**
   * Deleting a reply removes exactly the replies with its id and keeps the
   * rest in order; hiding the thread leaves no replies open.
   */
  lemma DeletedCallbackSpec(t: Thread, deleted: Comment)
    ensures IsReply(deleted) ==>
              var u := DeletedCallback(t, deleted);
              Subseq(u.replies, t.replies)
              && (forall x :: x in u.replies <==> x in t.replies && x.id != deleted.id)
              && u.openId == t.openId && u.target == t.target
    ensures !IsReply(deleted) ==> DeletedCallback(t, deleted).openId == "" && DeletedCallback(t, deleted).replies == []
    ensures Hidden(t, false).openId == "" && Hidden(t, false).replies == [] && Hidden(t, true) == t
  {
    FilterIsSubseq(t.replies, (x: Comment) => x.id != deleted.id);
  }

  /**
   * The delete handed to the nested reply list, as written: once the
   * request settles it drops the reply from the shown replies whatever the
   * outcome, and closes the replies when one reply was shown before.
   */
  function NestedDeleteAsWritten(t: Thread, deletedId: string, status: int): Thread
  {
    var filtered := Filter(t.replies, (x: Comment) => x.id != deletedId);
    t.(replies := filtered, openId := if |t.replies| == 1 then "" else t.openId)
  }

  /** The nested delete as intended: only a delete the server accepted changes the thread. */
  function NestedDelete(t: Thread, deletedId: string, status: int): Thread
  {
    if status < 400 then NestedDeleteAsWritten(t, deletedId, status) else t
  }

  /** A refused delete still hides the reply, and closes a one-reply thread, as written. */
  lemma RefusedNestedDeleteHidesReply()
    ensures var r := Comment("r", "p", "ok", 0, Str("c"));
            var t := Thread("c", None, [r]);
            NestedDeleteAsWritten(t, "r", 500) == Thread("", None, [])
            && t.replies != []
  {
    var r := Comment("r", "p", "ok", 0, Str("c"));
    assert Filter([r], (x: Comment) => x.id != "r") == [];
  }

  /**
   * A refused delete leaves the thread as it was; an accepted one removes
   * exactly the replies with that id, in order, and closes the thread when
   * its only reply was deleted.
   */
  lemma NestedDeleteSpec(t: Thread, deletedId: string, status: int)
    ensures status >= 400 ==> NestedDelete(t, deletedId, status) == t
    ensures status < 400 ==>
              var u := NestedDelete(t, deletedId, status);
              Subseq(u.replies, t.replies)
              && (forall x :: x in u.replies <==> x in t.replies && x.id != deletedId)
              && (|t.replies| == 1 && t.replies[0].id == deletedId ==> u.openId == "" && u.replies == [])
  {
    FilterIsSubseq(t.replies, (x: Comment) => x.id != deletedId);
    if |t.replies| == 1 && t.replies[0].id == deletedId {
      assert t.replies == [t.replies[0]];
      assert Filter(t.replies, (x: Comment) => x.id != deletedId) == [];
    }
  }

  /**
   * The comment a composer in this thread replies to: a top-level composer
   * replies to the post itself (no comment id), a nested one to the target
   * when it has an id and otherwise to the comment whose replies it lists.
   * The result is the target's id and its post.
   */
  function ComposerTarget(subComment: bool, t: Thread, parent: Comment, postId: string): (r: (Val, string))
    ensures !subComment ==> r == (Absent, postId)
    ensures subComment && !(t.target.Some? && t.target.value.id != "") ==> r == (Str(parent.id), parent.postId)
  {
    if !subComment then (Absent, postId)
    else if t.target.Some? && t.target.value.id != "" then (Str(t.target.value.id), t.target.value.postId)
    else (Str(parent.id), parent.postId)
  }

  /** One comment list's state fields. */
  class CommentsView {
    var openId: string
    var target: Option<Comment>
    var replies: seq<Comment>

    function State(): Thread
      reads this
    {
      Thread(openId, target, replies)
    }

    constructor ()
      ensures State() == Closed
    {
      openId := "";
      target := None;
      replies := [];
    }

    /** The "n replies" button and the reply load it triggers. */
    method HandleToggleReplies(commentId: string, status: int, got: seq<Comment>)
      modifies this
      ensures State() == RepliesToggled(old(State()), commentId, status, got)
    {
      if openId == commentId {
        openId := "";
      } else {
        openId := commentId;
      }
      replies := [];
      target := None;
      if openId != "" && status < 400 {
        replies := got;
      }
    }

    method HandleReplyClick(c: Comment)
      modifies this
      ensures State() == ReplyClicked(old(State()), c)
    {
      if target.Some? && target.value.id == c.id {
        target := None;
      } else {
        target := Some(c);
      }
      openId := "";
    }

    method HandleToggleStatus(toggleStatus: bool)
      modifies this
      ensures State() == Hidden(old(State()), toggleStatus)
    {
      if !toggleStatus {
        replies := [];
        openId := "";
      }
    }

    /** `handleDeleteCurrentComment`'s callback, run once the delete succeeded. */
    method OnCommentDeleted(deleted: Comment)
      modifies this
      ensures State() == DeletedCallback(old(State()), deleted)
    {
      if IsReply(deleted) {
        replies := Filter(replies, (x: Comment) => x.id != deleted.id);
      } else {
        replies := [];
        openId := "";
      }
    }

    /** `handlePostComment`'s callback, run once the comment was created. */
    method OnCommentPosted(created: Comment)
      modifies this
      ensures State() == PostedCallback(old(State()), created)
    {
      if IsReply(created) {
        replies := replies + [created];
      }
    }

    /** The delete the nested reply list calls, after the request settles. */
    method OnNestedDelete(deletedId: string, status: int)
      modifies this
      ensures State() == NestedDelete(old(State()), deletedId, status)
    {
      if status < 400 {
        var before := |replies|;
        replies := Filter(replies, (x: Comment) => x.id != deletedId);
        if before == 1 {
          openId := "";
        }
      }
    }
  }
}
