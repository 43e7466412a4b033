/** The post collection as the controller uses it: create a post, find one by
    id, save one that was read and changed. The posts are kept in insertion
    order; ids are handed out by the store and never reused. */
module PostRepository {

  import opened Model

  /** The fields the controller passes to `Post.create`. */
  datatype Draft = Draft(user: UserId, text: Option<string>, mediaUrl: Option<string>, mediaType: string)

  /** The post the store makes of a draft: the id it assigns, no likes, no
      comments, and the creation time. */
  function NewPost(id: PostId, d: Draft, now: int): Post {
    Post(id, d.user, d.text, d.mediaUrl, d.mediaType, [], [], now)
  }

  class PostStore {
    var posts: seq<Post>
    var nextId: PostId

    /** Every id is below the next one to hand out, and no two posts share an id. */
    ghost predicate Valid()
      reads this
    {
      (forall i :: 0 <= i < |posts| ==> posts[i].id < nextId) &&
      (forall i, j :: 0 <= i < j < |posts| ==> posts[i].id != posts[j].id)
    }

    constructor ()
      ensures Valid() && posts == []
    {
      posts := [];
      nextId := 0;
    }

    /** `Post.create`: the new post gets an id no stored post has and is added
        after the existing ones, which are unchanged. */
    method Create(d: Draft, now: int) returns (p: Post)
      requires Valid()
      modifies this
      ensures Valid() && nextId == old(nextId) + 1
      ensures p == NewPost(old(nextId), d, now)
      ensures FindIndex(old(posts), p.id) == -1
      ensures posts == old(posts) + [p]
    {
      p := NewPost(nextId, d, now);
      posts := posts + [p];
      nextId := nextId + 1;
    }

    /** `Post.findById`: the stored post with that id, or nothing when no post has it. */
    method FindById(id: PostId) returns (found: Option<Post>)
      requires Valid()
      ensures found.None? <==> FindIndex(posts, id) == -1
      ensures found.Some? ==> found.value.id == id && found.value in posts
    {
      var i := FindIndex(posts, id);
      found := if i == -1 then None else Some(posts[i]);
    }

    /** `post.save()` on a post read from the store: the stored post with its
        id is replaced by it, and nothing else changes. */
    method Save(p: Post)
      requires Valid()
      requires FindIndex(posts, p.id) != -1
      modifies this
      ensures Valid() && nextId == old(nextId)
      ensures posts == old(posts)[FindIndex(old(posts), p.id) := p]
    {
      posts := posts[FindIndex(posts, p.id) := p];
    }
  }

  /** In a store whose ids are unique, the post with a given id is the one
      `FindIndex` finds. */
  lemma {:induction false} UniqueIdsLocate(posts: seq<Post>, p: Post)
    requires forall i, j :: 0 <= i < j < |posts| ==> posts[i].id != posts[j].id
    requires p in posts
    ensures 0 <= FindIndex(posts, p.id) && posts[FindIndex(posts, p.id)] == p
  {
  }
}
