/** The community feed (src/hooks/useSocialFeatures.tsx) over in-memory tables: posts,
    comments and the set of (user, post) likes, with the guards and defaults the hook
    applies before writing and after reading. */
module Social {
  import opened Wrappers
  import opened Text

  datatype PostRow = PostRow(
    id: string, userId: string, content: string, imageUrl: Option<string>,
    tags: Option<seq<string>>, postType: string)

  datatype CommentRow = CommentRow(
    id: string, userId: string, postId: string, content: string, parentId: Option<string>)

  datatype Like = Like(userId: string, postId: string)

  datatype Db = Db(posts: seq<PostRow>, comments: seq<CommentRow>, likes: set<Like>)

  /** The message shown when a signed-out visitor tries to like a post. */
  const SignInToLike := "You must be logged in to like posts"

  const UnknownUser := "Unknown User"

  /** `createPost`: nothing without a user or with blank content; otherwise one post with
      the trimmed content, tags defaulting to none and type defaulting to "community". */
  function CreatePost(db: Db, user: Option<string>, content: string, imageUrl: Option<string>,
                      tags: Option<seq<string>>, postType: Option<string>, newId: string): (r: Db)
    ensures user.None? || IsBlank(content) ==> r == db
    ensures user.Some? && !IsBlank(content) ==>
      && r.posts == db.posts + [PostRow(newId, user.value, Trim(content), imageUrl,
                                        Some(tags.GetOr([])), postType.GetOr("community"))]
      && r.comments == db.comments && r.likes == db.likes
  {
    if user.None? || Trim(content) == [] then db
    else
      var row := PostRow(newId, user.value, Trim(content), imageUrl, Some(tags.GetOr([])),
                         postType.GetOr("community"));
      db.(posts := db.posts + [row])
  }

  /** `addComment`: nothing without a user or with blank content; otherwise one comment
      with the trimmed content under the given post and parent. */
  function AddComment(db: Db, user: Option<string>, postId: string, content: string,
                      parentId: Option<string>, newId: string): (r: Db)
    ensures user.None? || IsBlank(content) ==> r == db
    ensures user.Some? && !IsBlank(content) ==>
      && r.comments == db.comments + [CommentRow(newId, user.value, postId, Trim(content), parentId)]
      && r.posts == db.posts && r.likes == db.likes
  {
    if user.None? || Trim(content) == [] then db
    else db.(comments := db.comments + [CommentRow(newId, user.value, postId, Trim(content), parentId)])
  }

  /** The rows a filtered delete keeps: every post except the user's own with that id. */
  function KeepPosts(posts: seq<PostRow>, postId: string, uid: string): (r: seq<PostRow>)
    ensures forall p :: p in r <==> p in posts && !(p.id == postId && p.userId == uid)
  {
    if |posts| == 0 then []
    else
      var drop := posts[0].id == postId && posts[0].userId == uid;
      (if drop then [] else [posts[0]]) + KeepPosts(posts[1..], postId, uid)
  }

  /** `deletePost`: nothing without a user; otherwise only a post that has the id and
      belongs to the user is removed. */
  function DeletePost(db: Db, user: Option<string>, postId: string): (r: Db)
    ensures user.None? ==> r == db
    ensures user.Some? ==> forall p :: p in r.posts <==>
      p in db.posts && !(p.id == postId && p.userId == user.value)
    ensures r.comments == db.comments && r.likes == db.likes
  {
    match user
    case None => db
    case Some(uid) => db.(posts := KeepPosts(db.posts, postId, uid))
  }

  /** Someone else's post survives its deletion attempt. */
  lemma DeleteSparesOthers(db: Db, uid: string, postId: string, p: PostRow)
    requires p in db.posts && p.userId != uid
    ensures p in DeletePost(db, Some(uid), postId).posts
  {
  }

  /** `toggleLike`: without a user, nothing changes and the sign-in message is reported;
      otherwise the user's like of the post is removed if present and added if not. */
  function ToggleLike(db: Db, user: Option<string>, postId: string): (r: (Db, Option<string>))
    ensures user.None? ==> r == (db, Some(SignInToLike))
    ensures user.Some? ==> r.1.None?
    ensures user.Some? ==> (Like(user.value, postId) in r.0.likes <==> Like(user.value, postId) !in db.likes)
    ensures forall l :: l != Like(user.GetOr(""), postId) ==> (l in r.0.likes <==> l in db.likes)
    ensures r.0.posts == db.posts && r.0.comments == db.comments
  {
    match user
    case None => (db, Some(SignInToLike))
    case Some(uid) =>
      var like := Like(uid, postId);
      if like in db.likes then (db.(likes := db.likes - {like}), None)
      else (db.(likes := db.likes + {like}), None)
  }

  /** Liking twice is a no-op: the second toggle undoes the first. */
  lemma ToggleLikeTwice(db: Db, user: Option<string>, postId: string)
    ensures ToggleLike(ToggleLike(db, user, postId).0, user, postId).0 == db
  {
  }

  // ---------------------------------------------------------------------------
  // Reading the feed

  /** A post as the feed shows it. */
  datatype PostView = PostView(
    id: string, userId: string, content: string, imageUrl: Option<string>,
    tags: seq<string>, postType: string, authorName: string, userLiked: bool)

  /** Whether the signed-in user has liked the post (`likes.some(l => l.user_id === user.id)`). */
  function UserLiked(likes: set<Like>, user: Option<string>, postId: string): (b: bool)
    ensures b <==> user.Some? && exists l :: l in likes && l.postId == postId && l.userId == user.value
  {
    match user
    case None => false
    case Some(uid) =>
      assert Like(uid, postId) in likes ==> exists l :: l in likes && l.postId == postId && l.userId == uid;
      Like(uid, postId) in likes
  }

  /** The shaping of one fetched post: missing tags read as none, an empty image URL as
      absent, a missing profile as "Unknown User". */
  function ShapePost(p: PostRow, names: map<string, string>, likes: set<Like>, user: Option<string>)
    : (v: PostView)
    ensures v.id == p.id && v.userId == p.userId && v.content == p.content && v.postType == p.postType
    ensures v.tags == (if p.tags.Some? then p.tags.value else [])
    ensures v.imageUrl.Some? <==> p.imageUrl.Some? && p.imageUrl.value != ""
    ensures v.authorName == (if p.userId in names then names[p.userId] else UnknownUser)
    ensures v.userLiked == UserLiked(likes, user, p.id)
  {
    PostView(p.id, p.userId, p.content,
             if p.imageUrl.Some? && p.imageUrl.value != "" then p.imageUrl else None,
             p.tags.GetOr([]), p.postType,
             if p.userId in names then names[p.userId] else UnknownUser,
             UserLiked(likes, user, p.id))
  }

  /** The posts a fetch selects: all of them, or those of the requested type when a
      non-empty type is given. */
  function SelectPosts(posts: seq<PostRow>, postType: Option<string>): (r: seq<PostRow>)
    ensures forall p :: p in r <==> p in posts && (postType.None? || postType.value == "" || p.postType == postType.value)
    ensures postType.None? || postType.value == "" ==> r == posts
  {
    if |posts| == 0 then []
    else
      var keep := postType.None? || postType.value == "" || posts[0].postType == postType.value;
      (if keep then [posts[0]] else []) + SelectPosts(posts[1..], postType)
  }

  /** `fetchPosts`: the selected posts, each shaped, in the order of the table (the
      query's newest-first ordering is not part of this model); `names` maps a user id
      to the name on that user's profile. */
  function FetchPosts(db: Db, user: Option<string>, names: map<string, string>, postType: Option<string>)
    : (r: seq<PostView>)
    ensures |r| == |SelectPosts(db.posts, postType)|
    ensures forall i :: 0 <= i < |r| ==> r[i] == ShapePost(SelectPosts(db.posts, postType)[i], names, db.likes, user)
  {
    var selected := SelectPosts(db.posts, postType);
    seq(|selected|, i requires 0 <= i < |selected| => ShapePost(selected[i], names, db.likes, user))
  }

  /** A like toggle read back: after the user toggles a post, the feed shows exactly that
      post's `userLiked` flipped for them and every other post as before. */
  lemma ToggleLikeThenFetch(db: Db, uid: string, postId: string, names: map<string, string>,
                            postType: Option<string>)
    ensures var before := FetchPosts(db, Some(uid), names, postType);
      var after := FetchPosts(ToggleLike(db, Some(uid), postId).0, Some(uid), names, postType);
      && |after| == |before|
      && forall i :: 0 <= i < |after| ==>
        if after[i].id == postId then after[i] == before[i].(userLiked := !before[i].userLiked)
        else after[i] == before[i]
  {
    var db2 := ToggleLike(db, Some(uid), postId).0;
    forall i | 0 <= i < |FetchPosts(db2, Some(uid), names, postType)|
      ensures var before := FetchPosts(db, Some(uid), names, postType);
        var after := FetchPosts(db2, Some(uid), names, postType);
        if after[i].id == postId then after[i] == before[i].(userLiked := !before[i].userLiked)
        else after[i] == before[i]
    {
      var p := SelectPosts(db.posts, postType)[i];
      if p.id != postId {
        assert UserLiked(db2.likes, Some(uid), p.id) == (Like(uid, p.id) in db2.likes);
      }
    }
  }

  /** Signed out, no post reads as liked. */
  lemma SignedOutLikesNothing(db: Db, names: map<string, string>, postType: Option<string>)
    ensures forall v :: v in FetchPosts(db, None, names, postType) ==> !v.userLiked
  {
  }
}
