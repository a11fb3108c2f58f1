/**
 * The post list: reacting to a post, the open post's comment section, and
 * the comment counters that adding and deleting comments keep. The posts
 * themselves belong to the blog screen, which hands its setter down.
 */
module PostsList {
  import opened Js
  import opened Lists
  import opened Posts
  import BlogsManagement
  import AppSlice
  import Json

  /** One react: the flag flips and the count moves by one towards the new flag. */
  function ToggleReact(p: Post): Post
  {
    p.(reacts := p.reacts + (if p.reacted then -1 else 1), reacted := !p.reacted)
  }

  /** `handleReactPost`: on success the post with that id is toggled. */
  function Reacted(posts: seq<Post>, postId: string, status: int): seq<Post>
  {
    if status < 400 then MapWhere(posts, (p: Post) => p.id == postId, ToggleReact) else posts
  }

  /**
   * A react flips the flag of the posts with that id, moves their count by
   * -1 when they were reacted and by +1 otherwise, and leaves the other
   * posts alone; two successful reacts restore the list.
   */
  lemma ReactedSpec(posts: seq<Post>, postId: string, status: int)
    ensures status >= 400 ==> Reacted(posts, postId, status) == posts
    ensures status < 400 ==>
              var r := Reacted(posts, postId, status);
              |r| == |posts|
              && forall i :: 0 <= i < |posts| ==>
                   if posts[i].id == postId then
                     r[i].reacted == !posts[i].reacted
                     && r[i].reacts == posts[i].reacts + (if posts[i].reacted then -1 else 1)
                     && r[i].(reacts := posts[i].reacts, reacted := posts[i].reacted) == posts[i]
                   else r[i] == posts[i]
    ensures status < 400 ==> Reacted(Reacted(posts, postId, status), postId, status) == posts
  {
    if status < 400 {
      var r := Reacted(posts, postId, status);
      var rr := Reacted(r, postId, status);
      assert |rr| == |posts|;
      forall i | 0 <= i < |posts| ensures rr[i] == posts[i] {
        if posts[i].id == postId {
          assert r[i] == ToggleReact(posts[i]);
          assert rr[i] == ToggleReact(r[i]);
        }
      }
    }
  }

  /** The comment count of the open post moved by `delta`. */
  function CountMoved(posts: seq<Post>, active: string, delta: int): seq<Post>
  {
    MapWhere(posts, (p: Post) => p.id == active, (p: Post) => p.(commentAmount := p.commentAmount + delta))
  }

  /** `handleAddComment`'s reply: a reply bumps its parent's count, a top-level comment goes last. */
  function CommentAdded(comments: seq<Comment>, c: Comment): seq<Comment>
  {
    if IsReply(c) then MapWhere(comments, (x: Comment) => Str(x.id) == c.parentId, (x: Comment) => x.(replies := x.replies + 1))
    else comments + [c]
  }

  /** `handleDeleteComment`'s reply: a top-level comment leaves, a reply lowers its parent's count. */
  function CommentDeleted(comments: seq<Comment>, d: Comment): seq<Comment>
  {
    if !IsReply(d) then Filter(comments, (x: Comment) => x.id != d.id)
    else MapWhere(comments, (x: Comment) => Str(x.id) == d.parentId, (x: Comment) => x.(replies := x.replies - 1))
  }

  /**
   * Adding a top-level comment appends it and adding a reply raises its
   * parent's reply count by one; deleting a top-level comment removes it and
   * deleting a reply lowers its parent's count by one; nothing else changes.
   */
  lemma CommentCountersSpec(comments: seq<Comment>, c: Comment)
    ensures !IsReply(c) ==> CommentAdded(comments, c) == comments + [c]
    ensures !IsReply(c) ==>
              (forall x :: x in CommentDeleted(comments, c) <==> x in comments && x.id != c.id)
              && Subseq(CommentDeleted(comments, c), comments)
    ensures IsReply(c) ==>
              var a := CommentAdded(comments, c);
              var d := CommentDeleted(comments, c);
              |a| == |comments| && |d| == |comments|
              && forall i :: 0 <= i < |comments| ==>
                   a[i].replies == comments[i].replies + (if Str(comments[i].id) == c.parentId then 1 else 0)
                   && d[i].replies == comments[i].replies - (if Str(comments[i].id) == c.parentId then 1 else 0)
                   && a[i].(replies := comments[i].replies) == comments[i]
                   && d[i].(replies := comments[i].replies) == comments[i]
  {
    if !IsReply(c) {
      FilterIsSubseq(comments, (x: Comment) => x.id != c.id);
    }
  }

  /**
   * Deleting what was just added restores the section: a reply's parent
   * count goes back, a new top-level comment whose id was not shown leaves
   * again, and a comment count moved up by one and down by one is unchanged.
   */
  lemma AddThenDeleteRestores(comments: seq<Comment>, posts: seq<Post>, active: string, c: Comment)
    requires !IsReply(c) ==> forall i :: 0 <= i < |comments| ==> comments[i].id != c.id
    ensures CommentDeleted(CommentAdded(comments, c), c) == comments
    ensures CountMoved(CountMoved(posts, active, 1), active, -1) == posts
  {
    if IsReply(c) {
      var a := CommentAdded(comments, c);
      var d := CommentDeleted(a, c);
      assert |d| == |comments|;
      forall i | 0 <= i < |comments| ensures d[i] == comments[i] {
        assert a[i].id == comments[i].id;
      }
    } else {
      var keep := (x: Comment) => x.id != c.id;
      FilterAppend(comments, [c], keep);
      FilterKeepsAll(comments, keep);
      assert Filter([c], keep) == [];
    }
    var once := CountMoved(posts, active, 1);
    var twice := CountMoved(once, active, -1);
    assert |twice| == |posts|;
    forall i | 0 <= i < |posts| ensures twice[i] == posts[i] {
      assert once[i].id == posts[i].id;
    }
  }

  /** The comment section's state: the open post and its top-level comments. */
  datatype Section = Section(active: string, comments: seq<Comment>)

  /**
   * `handleToggleComments` and the load it triggers: an open section is
   * emptied, the post becomes the open one, and, only when the open post
   * changed to a post with an id, a successful load shows its comments.
   */
  function Toggled(s: Section, postId: string, status: int, got: seq<Comment>): Section
  {
    var emptied := if s.active != "" then [] else s.comments;
    var reload := postId != s.active && postId != "" && status < 400;
    Section(postId, if reload then got else emptied)
  }

  /**
   * Switching to another post shows that post's loaded comments, never the
   * previous post's; choosing the post that is already open again empties
   * the section without loading it again.
   */
  lemma ToggledSpec(s: Section, postId: string, status: int, got: seq<Comment>)
    ensures Toggled(s, postId, status, got).active == postId
    ensures postId != s.active && postId != "" && status < 400 ==> Toggled(s, postId, status, got).comments == got
    ensures s.active != "" ==> Toggled(s, postId, status, got).comments == got || Toggled(s, postId, status, got).comments == []
    ensures s.active != "" && postId == s.active ==> Toggled(s, postId, status, got).comments == []
  {
  }

  /**
   * `loadAuthorInfo`'s actions: nothing for an empty id; otherwise the
   * loader goes on and, when the load succeeds, off again. A refused load
   * throws while reading the reply's message (the request layer hands back
   * the error, which has no `data`), so neither the error message nor the
   * handler's own loader-off is ever dispatched.
   */
  function AuthorActions(authorId: string, status: int): seq<AppSlice.Action>
  {
    if authorId == "" then []
    else if status < 400 then [AppSlice.LoadingFullScreen(Some(true)), AppSlice.LoadingFullScreen(Some(false))]
    else [AppSlice.LoadingFullScreen(Some(true))]
  }

  /**
   * Loading an author leaves the store alone for an empty id; a successful
   * load ends with the loader off and nothing else changed; a refused one
   * leaves this handler's loader on and shows no message of its own.
   */
  lemma AuthorActionsSpec(s: AppSlice.AppState, authorId: string, status: int)
    ensures authorId == "" ==> AppSlice.ReduceAll(s, AuthorActions(authorId, status)) == s
    ensures authorId != "" && status < 400 ==>
              AppSlice.ReduceAll(s, AuthorActions(authorId, status)) == s.(loadingFullScreen := false)
    ensures authorId != "" && status >= 400 ==>
              AppSlice.ReduceAll(s, AuthorActions(authorId, status)) == s.(loadingFullScreen := true)
  {
    var acts := AuthorActions(authorId, status);
    if authorId != "" {
      assert AppSlice.ReduceAll(s, acts) == AppSlice.ReduceAll(AppSlice.Reduce(s, acts[0]), acts[1..]);
      if status < 400 {
        var s1 := AppSlice.Reduce(s, acts[0]);
        assert AppSlice.ReduceAll(s1, acts[1..]) == AppSlice.ReduceAll(AppSlice.Reduce(s1, acts[1]), acts[2..]);
      }
    }
  }

  /** The list's own state fields; the posts live on the blog screen. */
  class PostsListView {
    var active: string
    var comments: seq<Comment>
    var author: Option<Json.Json>

    function State(): Section
      reads this
    {
      Section(active, comments)
    }

    constructor ()
      ensures State() == Section("", [])
    {
      active := "";
      comments := [];
      author := None;
    }

    /** The comment button, and the comment load its effect runs when the open post changes. */
    method HandleToggleComments(postId: string, status: int, got: seq<Comment>)
      modifies this
      ensures State() == Toggled(old(State()), postId, status, got)
    {
      var changed := postId != active;
      if active != "" {
        comments := [];
      }
      active := postId;
      if changed && postId != "" && status < 400 {
        comments := got;
      }
    }

    /**
     * `loadAuthorInfo`: a successful load shows the author's info; a
     * refused one throws (`threw`) with the loader still on.
     */
    method LoadAuthorInfo(app: AppSlice.AppStore, authorId: string, status: int, info: Json.Json)
      returns (threw: bool)
      modifies this, app
      ensures threw <==> authorId != "" && status >= 400
      ensures author == (if authorId != "" && status < 400 then Some(info) else old(author))
      ensures State() == old(State())
      ensures app.State() == AppSlice.ReduceAll(old(app.State()), AuthorActions(authorId, status))
    {
      threw := false;
      if authorId == "" {
        return;
      }
      ghost var s0 := app.State();
      var acts := AuthorActions(authorId, status);
      app.Dispatch(acts[0]);
      assert AppSlice.ReduceAll(s0, acts) == AppSlice.ReduceAll(AppSlice.Reduce(s0, acts[0]), acts[1..]);
      if status >= 400 {
        threw := true;
        return;
      }
      author := Some(info);
      ghost var s1 := app.State();
      app.Dispatch(acts[1]);
      assert AppSlice.ReduceAll(s1, acts[1..]) == AppSlice.ReduceAll(AppSlice.Reduce(s1, acts[1]), acts[2..]);
    }

    /**
     * `handleReactPost`: a successful react toggles the post on the blog
     * screen; a refused one throws (`threw`) before showing any message,
     * so the store is not touched here.
     */
    method HandleReactPost(screen: BlogsManagement.BlogsScreen, postId: string, status: int)
      returns (threw: bool)
      modifies screen
      ensures threw <==> status >= 400
      ensures screen.posts == Reacted(old(screen.posts), postId, status)
      ensures screen.images == old(screen.images) && screen.pages == old(screen.pages) && screen.content == old(screen.content)
      ensures screen.loadingNextPosts == old(screen.loadingNextPosts)
    {
      threw := status >= 400;
      if !threw {
        screen.posts := MapWhere(screen.posts, (p: Post) => p.id == postId, ToggleReact);
      }
    }

    /** `handleAddComment`: on success the counters move and the created comment goes to the caller's callback. */
    method HandleAddComment(screen: BlogsManagement.BlogsScreen, app: AppSlice.AppStore, status: int, created: Comment, reply: Json.Json)
      returns (cb: Option<Comment>)
      modifies this, screen, app
      ensures status < 400 ==>
                comments == CommentAdded(old(comments), created) && screen.posts == CountMoved(old(screen.posts), active, 1)
                && cb == Some(created)
      ensures status >= 400 ==> comments == old(comments) && screen.posts == old(screen.posts) && cb.None?
      ensures active == old(active)
      ensures app.State() == AppSlice.ReduceAll(old(app.State()), BlogsManagement.LoaderActions(status, reply))
    {
      ghost var s0 := app.State();
      var acts := BlogsManagement.LoaderActions(status, reply);
      app.Dispatch(acts[0]);
      assert AppSlice.ReduceAll(s0, acts) == AppSlice.ReduceAll(AppSlice.Reduce(s0, acts[0]), acts[1..]);
      ghost var s1 := app.State();
      cb := None;
      if status < 400 {
        if IsReply(created) {
          comments := MapWhere(comments, (x: Comment) => Str(x.id) == created.parentId, (x: Comment) => x.(replies := x.replies + 1));
        } else {
          comments := comments + [created];
        }
        screen.posts := CountMoved(screen.posts, active, 1);
        cb := Some(created);
        app.Dispatch(acts[1]);
        assert AppSlice.ReduceAll(s1, acts[1..]) == AppSlice.ReduceAll(AppSlice.Reduce(s1, acts[1]), acts[2..]);
        app.Dispatch(acts[2]);
        assert AppSlice.ReduceAll(AppSlice.Reduce(s1, acts[1]), acts[2..])
            == AppSlice.ReduceAll(AppSlice.Reduce(AppSlice.Reduce(s1, acts[1]), acts[2]), acts[3..]);
      } else {
        app.Dispatch(acts[1]);
        assert AppSlice.ReduceAll(s1, acts[1..]) == AppSlice.ReduceAll(AppSlice.Reduce(s1, acts[1]), acts[2..]);
      }
    }

    /**
     * `handleDeleteComment`: on success the counters move, the open post's
     * comment count drops by the reported number of removed comments, and
     * the deleted comment goes to the caller's callback.
     */
    method HandleDeleteComment(screen: BlogsManagement.BlogsScreen, app: AppSlice.AppStore, status: int,
                               deleted: Comment, deletedCount: int, reply: Json.Json)
      returns (cb: Option<Comment>)
      modifies this, screen, app
      ensures status < 400 ==>
                comments == CommentDeleted(old(comments), deleted)
                && screen.posts == CountMoved(old(screen.posts), active, -deletedCount)
                && cb == Some(deleted)
      ensures status >= 400 ==> comments == old(comments) && screen.posts == old(screen.posts) && cb.None?
      ensures active == old(active)
      ensures app.State() == AppSlice.ReduceAll(old(app.State()), BlogsManagement.LoaderActions(status, reply))
    {
      ghost var s0 := app.State();
      var acts := BlogsManagement.LoaderActions(status, reply);
      app.Dispatch(acts[0]);
      assert AppSlice.ReduceAll(s0, acts) == AppSlice.ReduceAll(AppSlice.Reduce(s0, acts[0]), acts[1..]);
      ghost var s1 := app.State();
      cb := None;
      if status < 400 {
        if !IsReply(deleted) {
          comments := Filter(comments, (x: Comment) => x.id != deleted.id);
        } else {
          comments := MapWhere(comments, (x: Comment) => Str(x.id) == deleted.parentId, (x: Comment) => x.(replies := x.replies - 1));
        }
        screen.posts := CountMoved(screen.posts, active, -deletedCount);
        cb := Some(deleted);
        app.Dispatch(acts[1]);
        assert AppSlice.ReduceAll(s1, acts[1..]) == AppSlice.ReduceAll(AppSlice.Reduce(s1, acts[1]), acts[2..]);
        app.Dispatch(acts[2]);
        assert AppSlice.ReduceAll(AppSlice.Reduce(s1, acts[1]), acts[2..])
            == AppSlice.ReduceAll(AppSlice.Reduce(AppSlice.Reduce(s1, acts[1]), acts[2]), acts[3..]);
      } else {
        app.Dispatch(acts[1]);
        assert AppSlice.ReduceAll(s1, acts[1..]) == AppSlice.ReduceAll(AppSlice.Reduce(s1, acts[1]), acts[2..]);
      }
    }

    /**
     * The post menu: "delete" hands the post to the blog screen's delete,
     * "edit" and any other key do nothing.
     */
    method HandleSelectAction(screen: BlogsManagement.BlogsScreen, app: AppSlice.AppStore, key: string, postId: string,
                              status: int, reply: Json.Json)
      modifies screen, app
      ensures key == "delete" ==>
                screen.posts == (if status < 400 then Filter(old(screen.posts), (p: Post) => p.id != postId) else old(screen.posts))
                && app.State() == AppSlice.ReduceAll(old(app.State()), BlogsManagement.LoaderActions(status, reply))
      ensures key != "delete" ==> screen.posts == old(screen.posts) && app.State() == old(app.State())
      ensures screen.images == old(screen.images) && screen.pages == old(screen.pages) && screen.content == old(screen.content)
    {
      if key == "delete" {
        screen.HandleDeletePost(app, postId, status, reply);
      }
    }
  }
}
