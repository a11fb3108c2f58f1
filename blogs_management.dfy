/**
 * The blog screen: the post composer (text and a list of chosen images),
 * creating and deleting posts, and the infinitely scrolling post list,
 * which appends the next page or replaces the list.
 */
module BlogsManagement {
  import opened Js
  import opened Lists
  import opened Posts
  import AppSlice
  import Json

  /** A chosen image: its upload uid and its other fields (file, preview URL, progress). */
  datatype Upload = Upload(uid: string, fields: map<string, Json.Json>)

  /** `handleChangeImagesList`: the new image goes first. */
  function ImageAdded(images: seq<Upload>, image: Upload): seq<Upload>
  {
    [image] + images
  }

  /** `{...found, ...extra}`: the first entry with the patch's uid (nothing when none) under the patch's fields. */
  function MergeUpload(images: seq<Upload>, extra: Upload): Upload
  {
    var found := Find(images, (f: Upload) => f.uid == extra.uid);
    Upload(extra.uid, (if found.Some? then found.value.fields else map[]) + extra.fields)
  }

  /** `handleChangeLastUploadedImage`: the merged entry first, then every entry of another uid. */
  function ImageUpdated(images: seq<Upload>, extra: Upload): seq<Upload>
  {
    [MergeUpload(images, extra)] + Filter(images, (f: Upload) => f.uid != extra.uid)
  }

  /** `handleRemoveUploadedImage`. */
  function ImageRemoved(images: seq<Upload>, uid: string): seq<Upload>
  {
    Filter(images, (f: Upload) => f.uid != uid)
  }

  /**
   * An update puts one entry with the patch's uid first: the patch's fields
   * win and the found entry's other fields stay; the other entries follow in
   * their order and none of them has that uid. A removal drops every entry
   * with the uid and keeps the rest in order.
   */
  lemma ImageUpdatedSpec(images: seq<Upload>, extra: Upload, i: nat)
    requires i < |images| && images[i].uid == extra.uid
    requires forall j :: 0 <= j < i ==> images[j].uid != extra.uid
    ensures var r := ImageUpdated(images, extra);
            r[0].uid == extra.uid
            && (forall k :: k in extra.fields ==> k in r[0].fields && r[0].fields[k] == extra.fields[k])
            && (forall k :: k in images[i].fields && k !in extra.fields ==> k in r[0].fields && r[0].fields[k] == images[i].fields[k])
            && r[1..] == ImageRemoved(images, extra.uid)
            && Subseq(r[1..], images)
            && (forall f :: f in r[1..] ==> f.uid != extra.uid)
    ensures |ImageAdded(images, extra)| == |images| + 1 && ImageAdded(images, extra)[0] == extra
            && ImageAdded(images, extra)[1..] == images
  {
    var found := Find(images, (f: Upload) => f.uid == extra.uid);
    assert found == Some(images[i]) by {
      var k :| 0 <= k < |images| && images[k] == found.value && images[k].uid == extra.uid
        && forall j :: 0 <= j < k ==> images[j].uid != extra.uid;
      assert k == i;
    }
    FilterIsSubseq(images, (f: Upload) => f.uid != extra.uid);
  }

  /** The composer's text fields, key by key. */
  type Content = map<string, string>

  const EmptyContent: Content := map["title" := "", "content" := ""]

  /** The list's paging: the page last received, its size, and whether more pages exist. */
  datatype PageState = PageState(currPage: int, pageSize: int, hasNextPage: bool)

  const InitialPages := PageState(0, 10, true)

  /** `loadPosts(page?, size?)`: an explicit number wins, otherwise the recorded one. */
  function LoadRequest(p: PageState, page: Option<int>, size: Option<int>): (int, int)
  {
    (page.UnwrapOr(p.currPage), size.UnwrapOr(p.pageSize))
  }

  /** The list after `loadPosts`' reply: the page right after the recorded one is appended, any other replaces. */
  function PostsLoaded(posts: seq<Post>, p: PageState, status: int, page: int, size: int, got: seq<Post>, hasNext: bool): (seq<Post>, PageState)
  {
    if status >= 400 then (posts, p)
    else ((if page == p.currPage + 1 then posts + got else got), PageState(page, size, hasNext))
  }

  /**
   * A failed load changes nothing; a successful one appends the reply's
   * posts exactly when its page follows the recorded page and otherwise
   * shows only them, and takes the page, size and next-page flag from it.
   */
  lemma PostsLoadedSpec(posts: seq<Post>, p: PageState, status: int, page: int, size: int, got: seq<Post>, hasNext: bool)
    ensures status >= 400 ==> PostsLoaded(posts, p, status, page, size, got, hasNext) == (posts, p)
    ensures status < 400 ==>
              var (ps, q) := PostsLoaded(posts, p, status, page, size, got, hasNext);
              q == PageState(page, size, hasNext)
              && (page == p.currPage + 1 ==> ps[..|posts|] == posts && ps[|posts|..] == got)
              && (page != p.currPage + 1 ==> ps == got)
  {
    if status < 400 && page == p.currPage + 1 {
      assert (posts + got)[..|posts|] == posts;
      assert (posts + got)[|posts|..] == got;
    }
  }

  /** The loader's observer: the recorded page is asked for only while visible, idle and with more pages. */
  function NextPageRequest(visible: bool, loading: bool, p: PageState): Option<(int, int)>
  {
    if visible && !loading && p.hasNextPage then Some(LoadRequest(p, Some(p.currPage), Some(p.pageSize))) else None
  }

  /** A request goes out exactly when all three hold, and it repeats the recorded page and size. */
  lemma NextPageRequestSpec(visible: bool, loading: bool, p: PageState)
    ensures NextPageRequest(visible, loading, p).Some? <==> visible && !loading && p.hasNextPage
    ensures NextPageRequest(visible, loading, p).Some? ==> NextPageRequest(visible, loading, p).value == (p.currPage, p.pageSize)
    ensures !p.hasNextPage ==> NextPageRequest(visible, loading, p).None?
  {
  }

  /** `handleCreateBlog`'s actions: loader on; on success the message and loader off. */
  function CreateActions(status: int, reply: Json.Json): seq<AppSlice.Action>
  {
    [AppSlice.LoadingFullScreen(Some(true))]
    + (if status < 400 then [AppSlice.CallMessage(AppSlice.Message(AppSlice.Success, Json.Get(reply, "message"))),
                             AppSlice.LoadingFullScreen(Some(false))] else [])
  }

  /** The actions of a request inside the full-screen loader: loader on; the reply's message on success; loader off. */
  function LoaderActions(status: int, reply: Json.Json): seq<AppSlice.Action>
  {
    [AppSlice.LoadingFullScreen(Some(true))]
    + (if status < 400 then [AppSlice.CallMessage(AppSlice.Message(AppSlice.Success, Json.Get(reply, "message")))] else [])
    + [AppSlice.LoadingFullScreen(Some(false))]
  }

  /**
   * A request inside the loader ends with the loader off and, on success,
   * the reply's message shown. On a failed create the handler itself
   * dispatches no loader-off; the request layer's failure handling turns
   * the loader off.
   */
  lemma LoaderActionsSpec(s: AppSlice.AppState, status: int, reply: Json.Json)
    ensures AppSlice.ReduceAll(s, LoaderActions(status, reply))
         == s.(loadingFullScreen := false,
               message := if status < 400 then Some(AppSlice.Message(AppSlice.Success, Json.Get(reply, "message"))) else s.message)
    ensures status < 400 ==>
              AppSlice.ReduceAll(s, CreateActions(status, reply)) == AppSlice.ReduceAll(s, LoaderActions(status, reply))
    ensures status >= 400 ==> AppSlice.ReduceAll(s, CreateActions(status, reply)) == s.(loadingFullScreen := true)
  {
    var acts := LoaderActions(status, reply);
    assert AppSlice.ReduceAll(s, acts) == AppSlice.ReduceAll(AppSlice.Reduce(s, acts[0]), acts[1..]);
    var s1 := AppSlice.Reduce(s, acts[0]);
    assert AppSlice.ReduceAll(s1, acts[1..]) == AppSlice.ReduceAll(AppSlice.Reduce(s1, acts[1]), acts[2..]);
    if status < 400 {
      var s2 := AppSlice.Reduce(s1, acts[1]);
      assert AppSlice.ReduceAll(s2, acts[2..]) == AppSlice.ReduceAll(AppSlice.Reduce(s2, acts[2]), acts[3..]);
      assert CreateActions(status, reply) == acts;
    } else {
      var c := CreateActions(status, reply);
      assert AppSlice.ReduceAll(s, c) == AppSlice.ReduceAll(AppSlice.Reduce(s, c[0]), c[1..]);
    }
  }

  /** The screen's state fields. */
  class BlogsScreen {
    var images: seq<Upload>
    var posts: seq<Post>
    var content: Content
    var pages: PageState
    var loadingNextPosts: bool

    constructor ()
      ensures images == [] && posts == [] && content == EmptyContent && pages == InitialPages && !loadingNextPosts
    {
      images := [];
      posts := [];
      content := EmptyContent;
      pages := InitialPages;
      loadingNextPosts := false;
    }

    method HandleChangePostContent(key: string, val: string)
      modifies this
      ensures content == old(content)[key := val]
      ensures images == old(images) && posts == old(posts) && pages == old(pages)
    {
      content := content[key := val];
    }

    method HandleChangeImagesList(image: Upload)
      modifies this
      ensures images == ImageAdded(old(images), image)
      ensures posts == old(posts) && content == old(content) && pages == old(pages)
    {
      images := [image] + images;
    }

    method HandleChangeLastUploadedImage(extra: Upload)
      modifies this
      ensures images == ImageUpdated(old(images), extra)
      ensures posts == old(posts) && content == old(content) && pages == old(pages)
    {
      images := [MergeUpload(images, extra)] + Filter(images, (f: Upload) => f.uid != extra.uid);
    }

    method HandleRemoveUploadedImage(uid: string)
      modifies this
      ensures images == ImageRemoved(old(images), uid)
      ensures posts == old(posts) && content == old(content) && pages == old(pages)
    {
      images := Filter(images, (f: Upload) => f.uid != uid);
    }

    /** On success the created post goes first and the composer is emptied. */
    method HandleCreateBlog(app: AppSlice.AppStore, status: int, created: Post, reply: Json.Json)
      modifies this, app
      ensures status < 400 ==>
                posts == [created] + old(posts) && images == [] && content == old(content)["title" := ""]["content" := ""]
      ensures status >= 400 ==> posts == old(posts) && images == old(images) && content == old(content)
      ensures pages == old(pages)
      ensures app.State() == AppSlice.ReduceAll(old(app.State()), CreateActions(status, reply))
    {
      ghost var s0 := app.State();
      var acts := CreateActions(status, reply);
      app.Dispatch(acts[0]);
      assert AppSlice.ReduceAll(s0, acts) == AppSlice.ReduceAll(AppSlice.Reduce(s0, acts[0]), acts[1..]);
      if status < 400 {
        posts := [created] + posts;
        images := [];
        content := content["title" := ""]["content" := ""];
        app.Dispatch(acts[1]);
        app.Dispatch(acts[2]);
        assert AppSlice.ReduceAll(AppSlice.Reduce(s0, acts[0]), acts[1..])
            == AppSlice.ReduceAll(AppSlice.Reduce(AppSlice.Reduce(s0, acts[0]), acts[1]), acts[2..]);
        assert AppSlice.ReduceAll(AppSlice.Reduce(AppSlice.Reduce(s0, acts[0]), acts[1]), acts[2..])
            == AppSlice.ReduceAll(AppSlice.Reduce(AppSlice.Reduce(AppSlice.Reduce(s0, acts[0]), acts[1]), acts[2]), acts[3..]);
      }
    }

    /** `loadPosts` with the reply's page, size, posts and next-page flag; the loading flag is off afterwards. */
    method LoadPosts(page: Option<int>, size: Option<int>, status: int, rPage: int, rSize: int, got: seq<Post>, hasNext: bool)
      returns (req: (int, int))
      modifies this
      ensures req == LoadRequest(old(pages), page, size)
      ensures (posts, pages) == PostsLoaded(old(posts), old(pages), status, rPage, rSize, got, hasNext)
      ensures images == old(images) && content == old(content) && !loadingNextPosts
    {
      loadingNextPosts := true;
      req := (page.UnwrapOr(pages.currPage), size.UnwrapOr(pages.pageSize));
      if status < 400 {
        if rPage == pages.currPage + 1 {
          posts := posts + got;
        } else {
          posts := got;
        }
        pages := pages.(currPage := rPage, pageSize := rSize, hasNextPage := hasNext);
      }
      loadingNextPosts := false;
    }

    /** The filter button: page 0 with the recorded size, inside the full-screen loader. */
    method HandleFilterPosts(app: AppSlice.AppStore, status: int, rPage: int, rSize: int, got: seq<Post>, hasNext: bool)
      returns (req: (int, int))
      modifies this, app
      ensures req == (0, old(pages.pageSize))
      ensures (posts, pages) == PostsLoaded(old(posts), old(pages), status, rPage, rSize, got, hasNext)
      ensures app.State() == old(app.State()).(loadingFullScreen := false)
    {
      app.Dispatch(AppSlice.LoadingFullScreen(Some(true)));
      req := LoadPosts(Some(0), Some(pages.pageSize), status, rPage, rSize, got, hasNext);
      app.Dispatch(AppSlice.LoadingFullScreen(Some(false)));
    }

    method HandleDeletePost(app: AppSlice.AppStore, postId: string, status: int, reply: Json.Json)
      modifies this, app
      ensures posts == (if status < 400 then Filter(old(posts), (p: Post) => p.id != postId) else old(posts))
      ensures images == old(images) && content == old(content) && pages == old(pages)
      ensures app.State() == AppSlice.ReduceAll(old(app.State()), LoaderActions(status, reply))
    {
      ghost var s0 := app.State();
      var acts := LoaderActions(status, reply);
      app.Dispatch(acts[0]);
      assert AppSlice.ReduceAll(s0, acts) == AppSlice.ReduceAll(AppSlice.Reduce(s0, acts[0]), acts[1..]);
      ghost var s1 := app.State();
      if status < 400 {
        posts := Filter(posts, (p: Post) => p.id != postId);
        app.Dispatch(acts[1]);
        assert AppSlice.ReduceAll(s1, acts[1..]) == AppSlice.ReduceAll(AppSlice.Reduce(s1, acts[1]), acts[2..]);
        app.Dispatch(acts[2]);
        assert AppSlice.ReduceAll(AppSlice.Reduce(s1, acts[1]), acts[2..])
            == AppSlice.ReduceAll(AppSlice.Reduce(AppSlice.Reduce(s1, acts[1]), acts[2]), acts[3..]);
      } else {
        app.Dispatch(acts[1]);
        assert AppSlice.ReduceAll(s1, acts[1..]) == AppSlice.ReduceAll(AppSlice.Reduce(s1, acts[1]), acts[2..]);
      }
    }
  }
}
