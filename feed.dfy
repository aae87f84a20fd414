/** The feed of src/pages/HomePage.jsx: the list of posts and the per-post
    maps of comments, expanded flags and comment drafts, and the handlers that
    update them. The calls the handlers make that are not part of this model
    (likePost and its siblings, getCommentsByPostId, createComment) appear as
    the values they resolve to. */
module Feed {
  import opened Js
  import opened Http
  import opened Api

  /** A comment as the page stores it. */
  datatype Comment = Comment(id: int, postId: int, userId: int, body: string, createdAt: string, username: string)

  /** What createComment resolves to when it succeeds. */
  datatype CommentReply = CommentReply(comment: Comment, commentCount: int)

  /** What likePost, unlikePost, dislikePost and undislikePost resolve to
      when they succeed: the new counts of the post. */
  datatype Counts = Counts(likes: int, dislikes: Option<int>)

  // ---------------------------------------------------------------------------
  // The updater functions passed to setPosts, setComments and
  // setExpandedComments

  /** `posts.map(post => post.id === id ? f(post) : post)`. */
  function MapMatching(posts: seq<Post>, id: int, f: Post -> Post): (r: seq<Post>)
    ensures |r| == |posts|
    ensures forall k :: 0 <= k < |posts| ==> r[k] == (if posts[k].id == id then f(posts[k]) else posts[k])
  {
    if posts == [] then []
    else [if posts[0].id == id then f(posts[0]) else posts[0]] + MapMatching(posts[1..], id, f)
  }

  /** The reaction updater: the posts with the given id take both counts from
      the reply. */
  function SetCounts(posts: seq<Post>, id: int, c: Counts): (r: seq<Post>)
    ensures |r| == |posts|
    ensures forall k :: 0 <= k < |r| ==> r[k].id == posts[k].id && r[k].comments == posts[k].comments
  {
    MapMatching(posts, id, (p: Post) => p.(likes := c.likes, dislikes := c.dislikes))
  }

  /** The comment-count updater: the posts with the given id take the count
      from the reply. */
  function SetCommentCount(posts: seq<Post>, id: int, count: int): (r: seq<Post>)
    ensures |r| == |posts|
    ensures forall k :: 0 <= k < |r| ==> r[k].id == posts[k].id && r[k].likes == posts[k].likes
  {
    MapMatching(posts, id, (p: Post) => p.(comments := count))
  }

  /** Only the posts whose id matches take the new counts; every other post,
      and every other field, stays as it was, in the same order. */
  lemma SetCountsTouchesOnlyTarget(posts: seq<Post>, id: int, c: Counts)
    ensures var r := SetCounts(posts, id, c);
            forall k :: 0 <= k < |posts| ==>
              && (posts[k].id != id ==> r[k] == posts[k])
              && (posts[k].id == id ==> r[k].likes == c.likes && r[k].dislikes == c.dislikes
                                        && r[k] == posts[k].(likes := r[k].likes, dislikes := r[k].dislikes))
  {
  }

  /** A reply for a post that is not in the list changes nothing. */
  lemma SetCountsAbsentId(posts: seq<Post>, id: int, c: Counts)
    requires forall k :: 0 <= k < |posts| ==> posts[k].id != id
    ensures SetCounts(posts, id, c) == posts
  {
    var r := SetCounts(posts, id, c);
    assert forall k :: 0 <= k < |posts| ==> r[k] == posts[k];
  }

  /** Applying the same reply twice is applying it once. */
  lemma SetCountsIdempotent(posts: seq<Post>, id: int, c: Counts)
    ensures SetCounts(SetCounts(posts, id, c), id, c) == SetCounts(posts, id, c)
  {
    var r := SetCounts(posts, id, c);
    var r2 := SetCounts(r, id, c);
    assert forall k :: 0 <= k < |r| ==> r2[k] == r[k];
  }

  /** Only the posts whose id matches take the new comment count. */
  lemma SetCommentCountTouchesOnlyTarget(posts: seq<Post>, id: int, count: int)
    ensures var r := SetCommentCount(posts, id, count);
            forall k :: 0 <= k < |posts| ==>
              && (posts[k].id != id ==> r[k] == posts[k])
              && (posts[k].id == id ==> r[k] == posts[k].(comments := count))
  {
  }

  /** `expandedComments[postId]`: a missing entry reads as undefined, which is
      falsy. */
  predicate IsExpanded(expanded: map<int, bool>, postId: int) {
    postId in expanded && expanded[postId]
  }

  /** The flag updater of toggleComments. */
  function Toggle(expanded: map<int, bool>, postId: int): (r: map<int, bool>)
    ensures IsExpanded(r, postId) == !IsExpanded(expanded, postId)
    ensures forall k :: k != postId ==> (k in r <==> k in expanded) && (k in r ==> r[k] == expanded[k])
  {
    expanded[postId := !IsExpanded(expanded, postId)]
  }

  /** Toggling twice restores the flag of that post, and no other flag ever
      moves. */
  lemma ToggleTwice(expanded: map<int, bool>, postId: int, other: int)
    requires other != postId
    ensures IsExpanded(Toggle(Toggle(expanded, postId), postId), postId) == IsExpanded(expanded, postId)
    ensures IsExpanded(Toggle(expanded, postId), other) == IsExpanded(expanded, other)
  {
  }

  /** `!comments[postId]` is false exactly when some list is stored, even an
      empty one, since an empty array is truthy. */
  predicate Cached(comments: map<int, Option<seq<Comment>>>, postId: int) {
    postId in comments && comments[postId].Some?
  }

  /** `prev[postId] || []`. */
  function Existing(comments: map<int, Option<seq<Comment>>>, postId: int): (cs: seq<Comment>)
    ensures Cached(comments, postId) ==> cs == comments[postId].value
    ensures !Cached(comments, postId) ==> cs == []
  {
    if Cached(comments, postId) then comments[postId].value else []
  }

  /** The comment updater of handleAddComment. */
  function AppendComment(comments: map<int, Option<seq<Comment>>>, postId: int, c: Comment)
    : (r: map<int, Option<seq<Comment>>>)
    ensures r.Keys == comments.Keys + {postId}
    ensures forall k :: k in comments && k != postId ==> r[k] == comments[k]
  {
    comments[postId := Some(Existing(comments, postId) + [c])]
  }

  /** Adding a comment makes the list of that post one longer, keeps what was
      there in front and puts the new comment last, creating the list when
      none was stored. */
  lemma AppendCommentAtEnd(comments: map<int, Option<seq<Comment>>>, postId: int, c: Comment)
    ensures var after := Existing(AppendComment(comments, postId, c), postId);
            && Cached(AppendComment(comments, postId, c), postId)
            && |after| == |Existing(comments, postId)| + 1
            && after[..|after| - 1] == Existing(comments, postId)
            && after[|after| - 1] == c
  {
    var after := Existing(AppendComment(comments, postId, c), postId);
    assert after == Existing(comments, postId) + [c];
  }

  /** The post handleCreatePost makes when createPost fails: the draft as
      body, no likes and no comments, and no dislike count at all. */
  function LocalPost(body: string, user: User, now: int, nowIso: string): (p: Post)
    ensures p.body == body && p.likes == 0 && p.comments == 0 && p.dislikes.None?
    ensures p.id == now && p.userId == user.id && p.username == user.username && p.createdAt == nowIso
  {
    Post(now, user.id, user.username, body, nowIso, 0, None, 0)
  }

  /** The post list fetchPosts shows: the server's posts when there are any,
      the sample posts otherwise. */
  function ShownPosts(data: seq<Post>, dummyPosts: seq<Post>): (shown: seq<Post>)
    ensures |data| > 0 ==> shown == data
    ensures |data| == 0 ==> shown == dummyPosts
  {
    if |data| > 0 then data else dummyPosts
  }

  // ---------------------------------------------------------------------------
  // The page state

  /** The state of the home page. */
  class HomeFeed {
    var posts: seq<Post>
    var newPostBody: string
    var loading: bool
    var expandedComments: map<int, bool>
    var comments: map<int, Option<seq<Comment>>>
    var commentInputs: map<int, string>

    /** The initial state: nothing loaded yet, loading on. */
    constructor ()
      ensures posts == [] && newPostBody == "" && loading
      ensures expandedComments == map[] && comments == map[] && commentInputs == map[]
    {
      posts := [];
      newPostBody := "";
      loading := true;
      expandedComments := map[];
      comments := map[];
      commentInputs := map[];
    }

    /** fetchPosts: the server's posts, or `dummyPosts` (the sample data,
        which is not part of this model) when the list is empty or the call
        failed; loading ends false. */
    method FetchPosts(net: Request -> Response<seq<Post>>, dummyPosts: seq<Post>)
      modifies this
      ensures posts == ShownPosts(GetAllPosts(net), dummyPosts)
      ensures !loading
      ensures newPostBody == old(newPostBody) && expandedComments == old(expandedComments)
              && comments == old(comments) && commentInputs == old(commentInputs)
    {
      loading := true;
      var data := GetAllPosts(net);
      posts := if |data| > 0 then data else dummyPosts;
      loading := false;
    }

    /** The effect that runs when the signed-in user changes: fetch the posts
        for a user, and only stop loading otherwise. */
    method UserChanged(user: Option<User>, net: Request -> Response<seq<Post>>, dummyPosts: seq<Post>)
      modifies this
      ensures user.Some? ==> posts == ShownPosts(GetAllPosts(net), dummyPosts)
      ensures user.None? ==> posts == old(posts)
      ensures !loading
      ensures newPostBody == old(newPostBody) && expandedComments == old(expandedComments)
              && comments == old(comments) && commentInputs == old(commentInputs)
    {
      if user.Some? {
        FetchPosts(net, dummyPosts);
      } else {
        loading := false;
      }
    }

    /** handleCreatePost. A blank draft or a missing token changes nothing.
        Otherwise exactly one post is put in front: the server's post, or the
        local one when createPost fails; and the draft is cleared. The page
        is only shown with a user signed in, hence `user`; `now` and `nowIso`
        stand for Date.now() and its ISO text. */
    method CreatePost(token: Option<string>, user: User, net: Request -> Response<Post>, now: int, nowIso: string)
      returns (sent: Option<Request>)
      modifies this
      ensures Blank(old(newPostBody)) || !Present(token) ==>
                sent.None? && posts == old(posts) && newPostBody == old(newPostBody)
      ensures !Blank(old(newPostBody)) && Present(token) ==>
                && sent == Some(CreatePostRequest(old(newPostBody), token.value))
                && |posts| == |old(posts)| + 1 && posts[1..] == old(posts)
                && posts[0] == (match Api.CreatePost(old(newPostBody), token.value, net)
                                case Some(p) => p
                                case None => LocalPost(old(newPostBody), user, now, nowIso))
                && newPostBody == ""
      ensures loading == old(loading) && expandedComments == old(expandedComments)
              && comments == old(comments) && commentInputs == old(commentInputs)
    {
      sent := None;
      if Trim(newPostBody) == "" || !Present(token) {
        return;
      }
      sent := Some(CreatePostRequest(newPostBody, token.value));
      var post := Api.CreatePost(newPostBody, token.value, net);
      if post.Some? {
        posts := [post.value] + posts;
        newPostBody := "";
      } else {
        var localPost := LocalPost(newPostBody, user, now, nowIso);
        posts := [localPost] + posts;
        newPostBody := "";
      }
    }

    /** handleLike, handleUnlike, handleDislike and handleUndislike, which
        differ only in the call they make. Without a token no call is made
        and nothing changes; a failed call changes nothing; a successful one
        sets the counts of the matching posts. */
    method HandleReaction(postId: int, token: Option<string>, reply: Option<Counts>) returns (called: bool)
      modifies this
      ensures called == Present(token)
      ensures posts == (if called && reply.Some? then SetCounts(old(posts), postId, reply.value) else old(posts))
      ensures newPostBody == old(newPostBody) && loading == old(loading) && expandedComments == old(expandedComments)
              && comments == old(comments) && commentInputs == old(commentInputs)
    {
      if !Present(token) {
        return false;
      }
      called := true;
      if reply.Some? {
        posts := SetCounts(posts, postId, reply.value);
      }
    }

    /** toggleComments: flips the flag of that post, and asks for its comments
        (`fetched` is what getCommentsByPostId resolves to) only when opening
        a post with no stored list. */
    method ToggleComments(postId: int, fetched: Option<seq<Comment>>) returns (fetchedCalled: bool)
      modifies this
      ensures expandedComments == Toggle(old(expandedComments), postId)
      ensures fetchedCalled == (!IsExpanded(old(expandedComments), postId) && !Cached(old(comments), postId))
      ensures comments == (if fetchedCalled then old(comments)[postId := fetched] else old(comments))
      ensures posts == old(posts) && newPostBody == old(newPostBody) && loading == old(loading)
              && commentInputs == old(commentInputs)
    {
      var isExpanded := IsExpanded(expandedComments, postId);
      expandedComments := Toggle(expandedComments, postId);
      fetchedCalled := false;
      if !isExpanded && !Cached(comments, postId) {
        fetchedCalled := true;
        comments := comments[postId := fetched];
      }
    }

    /** handleAddComment: with a token and a draft that is not blank, a
        successful createComment appends the comment (under the signed-in
        user's name) to that post's list, sets that post's comment count and
        clears that post's draft only. */
    method AddComment(postId: int, token: Option<string>, user: User, reply: Option<CommentReply>)
      returns (called: bool)
      modifies this
      ensures called == (Present(token) && postId in old(commentInputs) && !Blank(old(commentInputs)[postId]))
      ensures !called || reply.None? ==>
                comments == old(comments) && posts == old(posts) && commentInputs == old(commentInputs)
      ensures called && reply.Some? ==>
                && comments == AppendComment(old(comments), postId, reply.value.comment.(username := user.username))
                && posts == SetCommentCount(old(posts), postId, reply.value.commentCount)
                && commentInputs == old(commentInputs)[postId := ""]
      ensures newPostBody == old(newPostBody) && loading == old(loading) && expandedComments == old(expandedComments)
    {
      if !Present(token) || postId !in commentInputs || Trim(commentInputs[postId]) == "" {
        return false;
      }
      called := true;
      if reply.Some? {
        var newComment := reply.value.comment.(username := user.username);
        comments := AppendComment(comments, postId, newComment);
        posts := SetCommentCount(posts, postId, reply.value.commentCount);
        commentInputs := commentInputs[postId := ""];
      }
    }
  }
}
