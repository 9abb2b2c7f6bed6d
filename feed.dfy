/** The state of the feed page and its handlers. Each handler, and each
    continuation of a request the handlers send, runs to completion as one
    step; a request is returned to the caller, and its outcome comes back
    as a call of the matching continuation. */
module FeedState {
  import opened Records
  import opened PostLists
  import opened Paging
  import opened Submission

  class Feed {
    var isEditing: bool
    var posts: seq<Post>
    var totalPosts: int
    var editPost: Option<Snapshot>
    var postPage: int
    var postsLoading: bool
    var editLoading: bool
    var error: Option<string>

    /** The state before the first load. */
    constructor ()
      ensures !isEditing && posts == [] && totalPosts == 0 && editPost == None
      ensures postPage == 1 && postsLoading && !editLoading && error == None
    {
      isEditing := false;
      posts := [];
      totalPosts := 0;
      editPost := None;
      postPage := 1;
      postsLoading := true;
      editLoading := false;
      error := None;
    }

    /** The first load succeeded: its items replace the posts. */
    method OnMountLoadSuccess(items: seq<Post>, totalItems: int)
      modifies this`posts, this`totalPosts, this`postsLoading
      ensures posts == MapMounted(items)
      ensures totalPosts == totalItems && !postsLoading
    {
      posts := MapMounted(items);
      totalPosts := totalItems;
      postsLoading := false;
    }

    /** A pushed event, dispatched on its action. A "delete" reloads the
        current page and returns the page to fetch; an unknown action is ignored. */
    method OnPush(action: string, post: Post) returns (fetchPage: Option<int>)
      modifies this`posts, this`totalPosts, this`postsLoading, this`postPage
      ensures action == "create" ==>
        posts == InsertFront(old(posts), post) &&
        totalPosts == old(totalPosts) + (if HasId(old(posts), post.id) then 0 else 1)
      ensures action == "update" ==>
        posts == ReplaceFirst(old(posts), post) && totalPosts == old(totalPosts)
      ensures action == "delete" ==>
        posts == old(posts) && totalPosts == old(totalPosts)
      ensures action == "delete" <==> fetchPage == Some(old(postPage))
      ensures action != "delete" ==> fetchPage == None
      ensures postsLoading == old(postsLoading) && postPage == old(postPage)
      ensures action != "create" && action != "update" ==>
        posts == old(posts) && totalPosts == old(totalPosts)
    {
      fetchPage := None;
      if action == "create" {
        AddPost(post);
      } else if action == "update" {
        UpdatePosts(post);
      } else if action == "delete" {
        var page := LoadPosts(None);
        fetchPage := Some(page);
      }
    }

    /** A pushed create: ignored when the id is already shown, otherwise the
        ingested record goes in front and the total grows by one. */
    method AddPost(post: Post)
      modifies this`posts, this`totalPosts
      ensures posts == InsertFront(old(posts), post)
      ensures HasId(old(posts), post.id) ==> totalPosts == old(totalPosts)
      ensures !HasId(old(posts), post.id) ==> totalPosts == old(totalPosts) + 1
    {
      var postExists := HasId(posts, post.id);
      if !postExists {
        posts := [Pushed(post)] + posts;
        totalPosts := totalPosts + 1;
      }
    }

    /** A pushed update: a copy of the posts with the first record of the
        same id overwritten. */
    method UpdatePosts(post: Post)
      modifies this`posts
      ensures posts == ReplaceFirst(old(posts), post)
      ensures |posts| == |old(posts)|
    {
      var current := posts;
      var updated := new Post[|current|](i requires 0 <= i < |current| => current[i]);
      assert updated[..] == current;
      var index := FindIndex(current, post.id);
      if index > -1 {
        updated[index] := post;
      }
      posts := updated[..];
    }

    /** Starts a page load: with a direction the posts are cleared and the
        loader shown; "next" and "previous" move the cursor first. Returns
        the page to fetch. */
    method LoadPosts(direction: Option<string>) returns (page: int)
      modifies this`posts, this`postsLoading, this`postPage
      ensures IsGiven(direction) ==> posts == [] && postsLoading
      ensures !IsGiven(direction) ==> posts == old(posts) && postsLoading == old(postsLoading)
      ensures postPage == CursorAfter(old(postPage), direction)
      ensures page == postPage
    {
      if IsGiven(direction) {
        postsLoading := true;
        posts := [];
      }
      page := postPage;
      if direction == Some("next") {
        page := page + 1;
        postPage := page;
      }
      if direction == Some("previous") {
        page := page - 1;
        postPage := page;
      }
    }

    /** A page load succeeded: its items replace the posts wholesale. */
    method OnLoadSuccess(items: seq<Post>, totalItems: int)
      modifies this`posts, this`totalPosts, this`postsLoading
      ensures posts == MapLoaded(items)
      ensures totalPosts == totalItems && !postsLoading
    {
      posts := MapLoaded(items);
      totalPosts := totalItems;
      postsLoading := false;
    }

    /** Records a failed request; used for a failed first or page load. */
    method CatchError(err: string)
      modifies this`error
      ensures error == Some(err)
    {
      error := Some(err);
    }

    /** Dismisses the error. */
    method DismissError()
      modifies this`error
      ensures error == None
    {
      error := None;
    }

    /** Opens the edit form for a new post. */
    method NewPost()
      modifies this`isEditing
      ensures isEditing
    {
      isEditing := true;
    }

    /** Opens the edit form on a copy of the first post with that id. */
    method StartEdit(postId: string)
      modifies this`isEditing, this`editPost
      ensures isEditing
      ensures editPost == Some(SnapshotOf(FindPost(posts, postId)))
      ensures HasId(posts, postId) ==> editPost.value.post.id == postId
    {
      var loadedPost := SnapshotOf(FindPost(posts, postId));
      isEditing := true;
      editPost := Some(loadedPost);
    }

    /** Closes the edit form and drops its snapshot. */
    method CancelEdit()
      modifies this`isEditing, this`editPost
      ensures !isEditing && editPost == None
    {
      isEditing := false;
      editPost := None;
    }

    /** Submits the edit form: shows the form's loader and returns the
        request, built one form field at a time. */
    method FinishEdit(postData: PostData) returns (req: Request)
      modifies this`editLoading
      ensures editLoading
      ensures req == SubmitRequest(editPost, postData)
    {
      editLoading := true;
      var form: seq<FormEntry> := [];
      form := form + [FormEntry("title", StringValue(postData.title))];
      form := form + [FormEntry("content", StringValue(postData.content))];
      if postData.image.Some? {
        form := form + [FormEntry("image", FileValue(postData.image.value))];
      } else {
        var fallback := if editPost.Some? then SnapshotImage(editPost.value) else "";
        form := form + [FormEntry("image", StringValue(fallback))];
      }
      var url := PostRoute;
      var verb := HttpPost;
      if editPost.Some? {
        url := PostRoute + "/" + SnapshotId(editPost.value);
        verb := HttpPut;
      }
      req := Request(verb, url, form);
    }

    /** The submit succeeded: the edit session ends. */
    method OnSubmitSuccess()
      modifies this`isEditing, this`editPost, this`editLoading
      ensures !isEditing && editPost == None && !editLoading
    {
      isEditing := false;
      editPost := None;
      editLoading := false;
    }

    /** The submit failed: the edit session ends and the error is recorded. */
    method OnSubmitFailure(err: string)
      modifies this`isEditing, this`editPost, this`editLoading, this`error
      ensures !isEditing && editPost == None && !editLoading
      ensures error == Some(err)
    {
      isEditing := false;
      editPost := None;
      editLoading := false;
      error := Some(err);
    }

    /** Starts a delete: shows the page's loader and returns the request. */
    method DeletePost(postId: string) returns (req: Request)
      modifies this`postsLoading
      ensures postsLoading
      ensures req == DeleteRequest(postId)
    {
      postsLoading := true;
      req := DeleteRequest(postId);
    }

    /** The delete succeeded: the current page is reloaded. */
    method OnDeleteSuccess() returns (fetchPage: int)
      modifies this`posts, this`postsLoading, this`postPage
      ensures posts == old(posts) && postsLoading == old(postsLoading)
      ensures postPage == old(postPage) && fetchPage == postPage
    {
      fetchPage := LoadPosts(None);
    }

    /** The delete failed: only the loader goes away. */
    method OnDeleteFailure()
      modifies this`postsLoading
      ensures !postsLoading
    {
      postsLoading := false;
    }

    /** The paginator's last page for the known total. */
    function PaginatorLastPage(): (last: int)
      reads this
      ensures PageSize * (last - 1) < totalPosts <= PageSize * last
    {
      LastPage(totalPosts)
    }
  }

  /** The same pushed create delivered twice leaves the state of one
      delivery, and a new id is then shown exactly once. */
  method CreateDeliveredTwice(f: Feed, post: Post)
    modifies f`posts, f`totalPosts, f`postsLoading, f`postPage
    ensures f.postsLoading == old(f.postsLoading) && f.postPage == old(f.postPage)
    ensures f.posts == InsertFront(old(f.posts), post)
    ensures f.totalPosts == old(f.totalPosts) + (if HasId(old(f.posts), post.id) then 0 else 1)
    ensures !HasId(old(f.posts), post.id) ==> CountId(f.posts, post.id) == 1
  {
    var _ := f.OnPush("create", post);
    var _ := f.OnPush("create", post);
    DuplicateCreateYieldsOneRecord(old(f.posts), post);
  }

  /** Starting an edit and failing the submit restores the posts and the
      flags of the idle state and records the error; the request was a PUT
      exactly when the post was on the page. */
  method FailedEditRollsBack(f: Feed, postId: string, data: PostData, err: string)
    returns (req: Request)
    modifies f`isEditing, f`editPost, f`editLoading, f`error
    ensures f.posts == old(f.posts) && f.totalPosts == old(f.totalPosts)
    ensures !f.isEditing && f.editPost == None && !f.editLoading
    ensures f.error == Some(err)
    ensures req.verb == HttpPut
    ensures HasId(old(f.posts), postId) ==> req.path == PostRoute + "/" + postId
    ensures !HasId(old(f.posts), postId) ==> req.path == PostRoute + "/undefined"
  {
    f.StartEdit(postId);
    req := f.FinishEdit(data);
    f.OnSubmitFailure(err);
  }

  /** A failed navigation keeps the moved cursor and the emptied page. */
  method FailedNavigationKeepsCursor(f: Feed, err: string) returns (page: int)
    modifies f`posts, f`postsLoading, f`postPage, f`error
    ensures page == old(f.postPage) + 1 == f.postPage
    ensures f.posts == [] && f.postsLoading && f.error == Some(err)
  {
    page := f.LoadPosts(Some("next"));
    f.CatchError(err);
  }

  /** A successful delete reloads the current page, whose fetched items
      then replace the posts; the cursor does not move. */
  method DeleteReloadsCurrentPage(f: Feed, postId: string, items: seq<Post>, totalItems: int)
    returns (fetchPage: int)
    modifies f`posts, f`totalPosts, f`postsLoading, f`postPage
    ensures fetchPage == old(f.postPage) == f.postPage
    ensures f.posts == MapLoaded(items) && f.totalPosts == totalItems && !f.postsLoading
  {
    var _ := f.DeletePost(postId);
    fetchPage := f.OnDeleteSuccess();
    f.OnLoadSuccess(items, totalItems);
  }

  /** Three posts of the concrete sequence below, with ids 2, 1 and 3. */
  const PostA := Post("2", "A", "a", Null, None, None, "", None)
  const PostB := Post("1", "B", "b", Null, None, None, "", None)
  const PostC := Post("3", "C", "c", Null, None, None, "", None)

  /** Two posts on the page, a pushed create of a third, then a pushed
      delete whose reload returns the third and the first. The create puts
      the new post in front and raises the total to 3; the delete fetches
      page 1; the reload's response, not a local filter of the page, is
      what is shown afterwards, and the two differ. */
  method CreateThenDeleteScenario()
    returns (afterCreate: seq<Post>, reloadPage: Option<int>, afterReload: seq<Post>)
    ensures afterCreate == [Pushed(PostC), Loaded(PostA), Loaded(PostB)]
    ensures reloadPage == Some(1)
    ensures afterReload == [Loaded(PostC), Loaded(PostA)]
    ensures afterReload != [afterCreate[0], afterCreate[1]]
  {
    var f := new Feed();
    f.OnLoadSuccess([PostA, PostB], 2);
    assert f.posts == [Loaded(PostA), Loaded(PostB)];
    var _ := f.OnPush("create", PostC);
    assert !HasId([Loaded(PostA), Loaded(PostB)], "3");
    assert f.totalPosts == 3 && f.PaginatorLastPage() == 2;
    afterCreate := f.posts;
    reloadPage := f.OnPush("delete", PostB);
    f.OnLoadSuccess([PostC, PostA], 2);
    afterReload := f.posts;
    assert afterReload[0].author != afterCreate[0].author;
  }
}
