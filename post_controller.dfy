/** The post controller of the backend: creating a post (with an optional
    image upload), listing the feed annotated for the viewer, and toggling a
    like. The post and like collections are sequences of documents in
    insertion order; the image upload is an outcome passed in; the caller
    is the `user`/`viewer` argument; the clock is `now`. */
module PostController {
  import opened Common
  import Ordering

  /** A post document. An empty `description` or `link` stands for one
      that was not given. */
  datatype Post = Post(
    id: PostId,
    user: UserId,
    description: string,
    link: string,
    imageUrl: Option<string>,
    createdAt: int)

  /** A like document: who liked which post. Nothing makes a pair unique. */
  datatype Like = Like(user: UserId, post: PostId)

  /** A post as the feed and the create response show it. */
  datatype PostView = PostView(post: Post, isLiked: bool, likes: nat)

  /** The body of the like/unlike response. */
  datatype LikeReply = LikeReply(likes: nat, isLiked: bool)

  /** What the image host answered: the secure URL, or an error. */
  datatype UploadOutcome = Uploaded(secureUrl: string) | UploadFailed

  const UploadError: HttpError := HttpError(500, "Failed to upload image")

  function CreatedAt(p: Post): int { p.createdAt }

  /** `Like.countDocuments({ post })`. */
  function LikesOf(likes: seq<Like>, post: PostId): (n: nat)
    ensures n <= |likes|
    ensures n == 0 <==> forall i :: 0 <= i < |likes| ==> likes[i].post != post
  {
    if likes == [] then 0
    else (if likes[0].post == post then 1 else 0) + LikesOf(likes[1..], post)
  }

  lemma {:induction false} LikesOfConcat(a: seq<Like>, b: seq<Like>, post: PostId)
    ensures LikesOf(a + b, post) == LikesOf(a, post) + LikesOf(b, post)
  {
    if a == [] {
      assert a + b == b;
    } else {
      assert (a + b)[0] == a[0] && (a + b)[1..] == a[1..] + b;
      LikesOfConcat(a[1..], b, post);
    }
  }

  /** The position `findOne` returns: the first matching like. */
  function FirstIndexOf(likes: seq<Like>, x: Like): (i: nat)
    requires x in likes
    ensures i < |likes| && likes[i] == x && x !in likes[..i]
  {
    if likes[0] == x then 0
    else
      var i := 1 + FirstIndexOf(likes[1..], x);
      assert likes[..i] == [likes[0]] + likes[1..][..i - 1];
      i
  }

  /** `existingLike.deleteOne()`: the first like equal to `x` removed. */
  function RemoveFirst(likes: seq<Like>, x: Like): (r: seq<Like>)
    requires x in likes
    ensures multiset(r) == multiset(likes) - multiset{x}
    ensures |r| == |likes| - 1
  {
    var i := FirstIndexOf(likes, x);
    assert likes == likes[..i] + [x] + likes[i + 1..];
    likes[..i] + likes[i + 1..]
  }

  /** The like collection after one toggle by `x.user` on `x.post`. */
  function Toggled(likes: seq<Like>, x: Like): (r: seq<Like>)
    ensures x in likes ==> multiset(r) == multiset(likes) - multiset{x}
    ensures x !in likes ==> r == likes + [x]
  {
    if x in likes then RemoveFirst(likes, x) else likes + [x]
  }

  /** A toggle moves the post's count by exactly one (down when a like
      existed, up otherwise) and leaves every other post's count alone. */
  lemma {:induction false} ToggleCounts(likes: seq<Like>, x: Like, q: PostId)
    ensures x in likes && q == x.post ==> LikesOf(Toggled(likes, x), q) == LikesOf(likes, q) - 1
    ensures x !in likes && q == x.post ==> LikesOf(Toggled(likes, x), q) == LikesOf(likes, q) + 1
    ensures q != x.post ==> LikesOf(Toggled(likes, x), q) == LikesOf(likes, q)
  {
    if x in likes {
      var i := FirstIndexOf(likes, x);
      assert likes == likes[..i] + ([x] + likes[i + 1..]);
      LikesOfConcat(likes[..i], [x] + likes[i + 1..], q);
      LikesOfConcat([x], likes[i + 1..], q);
      LikesOfConcat(likes[..i], likes[i + 1..], q);
    } else {
      LikesOfConcat(likes, [x], q);
    }
  }

  /** Toggling twice restores the likes (as a collection) exactly when the
      pair was liked at most once to begin with; from a duplicated like,
      two toggles remove two copies. */
  lemma ToggleTwice(likes: seq<Like>, x: Like)
    ensures multiset(Toggled(Toggled(likes, x), x)) == multiset(likes) <==> multiset(likes)[x] <= 1
  {
    var once := Toggled(likes, x);
    var twice := Toggled(once, x);
    if x in likes {
      assert multiset(once) == multiset(likes) - multiset{x};
      if multiset(likes)[x] >= 2 {
        assert x in multiset(once);
        assert multiset(twice)[x] == multiset(likes)[x] - 2;
      } else {
        assert x !in multiset(once);
      }
    } else {
      assert multiset(once) == multiset(likes) + multiset{x};
    }
  }

  /** After a toggle, the feed's `isLiked` for that user and post agrees
      with the toggle's own answer exactly when the pair was liked at most
      once before: an unlike of a duplicated like still shows as liked. */
  lemma ToggleAgreesWithFeed(likes: seq<Like>, x: Like)
    ensures (x in Toggled(likes, x)) == (x !in likes) <==> multiset(likes)[x] <= 1
  {
    if x in likes {
      assert x in multiset(likes);
      assert multiset(Toggled(likes, x))[x] == multiset(likes)[x] - 1;
    }
  }

  /** How the feed shows one post to `viewer`. */
  function View(p: Post, likes: seq<Like>, viewer: UserId): (v: PostView)
    ensures v.post == p
    ensures v.isLiked <==> Like(viewer, p.id) in likes
    ensures v.likes == LikesOf(likes, p.id)
  {
    PostView(p, Like(viewer, p.id) in likes, LikesOf(likes, p.id))
  }

  function Views(ps: seq<Post>, likes: seq<Like>, viewer: UserId): (r: seq<PostView>)
    ensures |r| == |ps|
    ensures forall i :: 0 <= i < |ps| ==> r[i] == View(ps[i], likes, viewer)
  {
    if ps == [] then [] else [View(ps[0], likes, viewer)] + Views(ps[1..], likes, viewer)
  }

  function PostsOf(vs: seq<PostView>): (r: seq<Post>)
    ensures |r| == |vs|
    ensures forall i :: 0 <= i < |vs| ==> r[i] == vs[i].post
  {
    if vs == [] then [] else [vs[0].post] + PostsOf(vs[1..])
  }

  class FeedStore {
    var posts: seq<Post>
    var likes: seq<Like>
    var nextPostId: PostId

    /** Every post id was handed out by the counter. */
    ghost predicate Valid()
      reads this
    {
      forall i :: 0 <= i < |posts| ==> posts[i].id < nextPostId
    }

    constructor ()
      ensures Valid() && posts == [] && likes == []
    {
      posts := [];
      likes := [];
      nextPostId := 0;
    }

    /** POST /api/posts/create. When an image is given and its upload
        fails: 500, and no post is stored. Otherwise one new post, owned by
        the caller, is appended under a fresh id, with the uploaded URL or
        no image URL at all when no image was given; the response shows it
        unliked with zero likes. */
    method CreatePost(user: UserId, description: string, link: string, image: string,
                      upload: UploadOutcome, now: int)
      returns (r: Result<PostView>)
      requires Valid()
      modifies this`posts, this`nextPostId
      ensures Valid()
      ensures image != "" && upload.UploadFailed? ==>
        r == Err(UploadError) && posts == old(posts) && nextPostId == old(nextPostId)
      ensures !(image != "" && upload.UploadFailed?) ==>
        && r.Ok?
        && r.value == PostView(r.value.post, false, 0)
        && posts == old(posts) + [r.value.post]
        && r.value.post.user == user
        && r.value.post.description == description && r.value.post.link == link
        && r.value.post.createdAt == now
        && (image == "" ==> r.value.post.imageUrl.None?)
        && (image != "" ==> r.value.post.imageUrl == Some(upload.secureUrl))
        && (forall i :: 0 <= i < |old(posts)| ==> old(posts)[i].id != r.value.post.id)
        && forall v :: multiset(PostsOf(GetPosts(v))) == multiset(PostsOf(old(GetPosts(v)))) + multiset{r.value.post}
    {
      var imageUrl: Option<string> := None;
      if image != "" {
        if upload.UploadFailed? {
          return Err(UploadError);
        }
        imageUrl := Some(upload.secureUrl);
      }
      var post := Post(nextPostId, user, description, link, imageUrl, now);
      posts := posts + [post];
      nextPostId := nextPostId + 1;
      r := Ok(PostView(post, false, 0));
    }

    /** GET /api/posts: every post exactly once, newest first, each with
        whether the viewer has a like on it and how many likes it has. */
    function GetPosts(viewer: UserId): (r: seq<PostView>)
      reads this
      ensures |r| == |posts|
      ensures multiset(PostsOf(r)) == multiset(posts)
      ensures forall i, j :: 0 <= i < j < |r| ==> r[i].post.createdAt >= r[j].post.createdAt
      ensures forall i :: 0 <= i < |r| ==>
        && (r[i].isLiked <==> Like(viewer, r[i].post.id) in likes)
        && r[i].likes == LikesOf(likes, r[i].post.id)
    {
      var sorted := Ordering.SortDesc(posts, CreatedAt);
      var r := Views(sorted, likes, viewer);
      assert PostsOf(r) == sorted;
      r
    }

    /** POST /api/posts/:postId/like. When the caller has a like on the
        post, the first such like is removed and the answer is "not liked";
        otherwise a like is appended and the answer is "liked". Whether the
        post exists is not checked. The count is the post's like count
        afterwards, one less or one more than before, and no other post's
        count moves. */
    method ToggleLike(user: UserId, post: PostId) returns (reply: LikeReply)
      modifies this`likes
      ensures likes == Toggled(old(likes), Like(user, post))
      ensures reply.isLiked <==> Like(user, post) !in old(likes)
      ensures reply.likes == LikesOf(likes, post)
      ensures reply.isLiked ==> reply.likes == LikesOf(old(likes), post) + 1
      ensures !reply.isLiked ==> reply.likes == LikesOf(old(likes), post) - 1
      ensures forall q :: q != post ==> LikesOf(likes, q) == LikesOf(old(likes), q)
    {
      var x := Like(user, post);
      forall q ensures LikesOf(Toggled(likes, x), q) == if q != post then LikesOf(likes, q)
                        else if x in likes then LikesOf(likes, q) - 1 else LikesOf(likes, q) + 1 {
        ToggleCounts(likes, x, q);
      }
      if x in likes {
        likes := RemoveFirst(likes, x);
        reply := LikeReply(LikesOf(likes, post), false);
      } else {
        likes := likes + [x];
        reply := LikeReply(LikesOf(likes, post), true);
      }
    }
  }
}
