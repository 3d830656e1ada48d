/** The comment controller of the backend: an append-only comment
    collection with a per-post, newest-first listing. The collection is a
    sequence of documents in insertion order; the caller is the `user`
    argument; the clock is `now`; fresh ids come from a counter. */
module CommentController {
  import opened Common
  import Ordering

  type CommentId = nat

  datatype Comment = Comment(id: CommentId, user: UserId, post: PostId, content: string, createdAt: int)

  function CommentCreatedAt(c: Comment): int { c.createdAt }

  /** `Comment.find({ post })` before sorting: the comments on `post`, in
      collection order. */
  function OnPost(cs: seq<Comment>, post: PostId): (r: seq<Comment>)
    ensures |r| <= |cs|
    ensures forall c :: c in r <==> c in cs && c.post == post
  {
    if cs == [] then []
    else if cs[0].post == post then [cs[0]] + OnPost(cs[1..], post)
    else OnPost(cs[1..], post)
  }

  /** Appending a comment adds it to the listing of its own post and to no
      other. */
  lemma {:induction false} OnPostAppend(cs: seq<Comment>, c: Comment, post: PostId)
    ensures OnPost(cs + [c], post) == OnPost(cs, post) + (if c.post == post then [c] else [])
  {
    if cs == [] {
      assert cs + [c] == [c];
    } else {
      assert (cs + [c])[0] == cs[0] && (cs + [c])[1..] == cs[1..] + [c];
      OnPostAppend(cs[1..], c, post);
    }
  }

  class CommentStore {
    var comments: seq<Comment>
    var nextId: CommentId

    /** Every comment id was handed out by the counter. */
    ghost predicate Valid()
      reads this
    {
      forall i :: 0 <= i < |comments| ==> comments[i].id < nextId
    }

    constructor ()
      ensures Valid() && comments == []
    {
      comments := [];
      nextId := 0;
    }

    /** GET /api/posts/:postId/comments: exactly the comments on that post,
        each as often as it is stored, newest first. */
    function GetComments(post: PostId): (r: seq<Comment>)
      reads this
      ensures multiset(r) == multiset(OnPost(comments, post))
      ensures forall c :: c in r <==> c in comments && c.post == post
      ensures Ordering.SortedDesc(r, CommentCreatedAt)
    {
      var r := Ordering.SortDesc(OnPost(comments, post), CommentCreatedAt);
      assert forall c :: c in r <==> c in multiset(r);
      r
    }

    /** POST /api/posts/:postId/comments: exactly one comment is appended,
        by the caller, on the given post, with the content as given and a
        fresh id; existing comments are untouched. Neither the post nor the
        content is checked. */
    method AddComment(user: UserId, post: PostId, content: string, now: int) returns (c: Comment)
      requires Valid()
      modifies this
      ensures Valid()
      ensures comments == old(comments) + [c]
      ensures c == Comment(c.id, user, post, content, now)
      ensures forall i :: 0 <= i < |old(comments)| ==> old(comments)[i].id != c.id
      ensures OnPost(comments, post) == OnPost(old(comments), post) + [c]
      ensures forall q :: q != post ==> OnPost(comments, q) == OnPost(old(comments), q)
      ensures multiset(GetComments(post)) == multiset(old(GetComments(post))) + multiset{c}
    {
      c := Comment(nextId, user, post, content, now);
      forall q ensures OnPost(comments + [c], q) == OnPost(comments, q) + (if c.post == q then [c] else []) {
        OnPostAppend(comments, c, q);
      }
      comments := comments + [c];
      nextId := nextId + 1;
    }
  }
}
