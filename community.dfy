/**
 * The community page: a feed of posts filtered by category, a like button
 * that toggles per post, and a box for writing a new post.
 */
module Community {
  import opened Wrappers
  import opened Text
  import opened Seqs
  import opened Toasts
  import MockData

  type Post = MockData.CommunityPost

  /** The filter buttons; `"all"` shows every post. */
  const Categories: seq<string> := ["all", "crop", "prices", "schemes", "tips"]

  /** The categories a new post can be given: the filters without `"all"`. */
  function PostCategories(): (cs: seq<string>)
    ensures "all" !in cs
    ensures forall c :: c in cs <==> c in Categories && c != "all"
  {
    Filter(Categories, (c: string) => c != "all")
  }

  /**
   * `filtered`: under `"all"` every post; under any other filter exactly the
   * posts of that category, in feed order.
   */
  function Filtered(posts: seq<Post>, filter: string): (r: seq<Post>)
    ensures filter == "all" ==> r == posts
    ensures filter != "all" ==> forall i :: 0 <= i < |r| ==> r[i] in posts && r[i].category == filter
    ensures filter != "all" ==> forall i :: 0 <= i < |posts| && posts[i].category == filter ==> posts[i] in r
  {
    if filter == "all" then posts else Filter(posts, (p: Post) => p.category == filter)
  }

  /** Filtering the feed filters each part of it in turn: the shown posts keep their relative order. */
  lemma FilteredPreservesOrder(a: seq<Post>, b: seq<Post>, filter: string)
    ensures Filtered(a + b, filter) == Filtered(a, filter) + Filtered(b, filter)
  {
    if filter != "all" {
      FilterConcat(a, b, (p: Post) => p.category == filter);
    }
  }

  /** One click on a post's heart: `liked` flips and `likes` moves by one in the same direction. */
  function ToggleLike(p: Post): (q: Post)
    ensures q.liked == !p.liked
    ensures q.likes == if p.liked then p.likes - 1 else p.likes + 1
    ensures q.(liked := p.liked, likes := p.likes) == p
  {
    p.(liked := !p.liked, likes := if p.liked then p.likes - 1 else p.likes + 1)
  }

  /**
   * `handleLike`: the feed keeps its length and order; every post with the id
   * changes in `liked` and `likes` only, and every other post stays as it was.
   */
  function LikeInList(posts: seq<Post>, id: string): (r: seq<Post>)
    ensures |r| == |posts|
    ensures forall i :: 0 <= i < |posts| && posts[i].id != id ==> r[i] == posts[i]
    ensures forall i :: 0 <= i < |posts| && posts[i].id == id ==>
      && r[i].liked == !posts[i].liked
      && r[i].likes == posts[i].likes + (if posts[i].liked then -1 else 1)
      && r[i].(liked := posts[i].liked, likes := posts[i].likes) == posts[i]
  {
    seq(|posts|, i requires 0 <= i < |posts| => if posts[i].id == id then ToggleLike(posts[i]) else posts[i])
  }

  /** Liking the same post twice gives the feed back unchanged. */
  lemma LikeTwiceRestores(posts: seq<Post>, id: string)
    ensures LikeInList(LikeInList(posts, id), id) == posts
  {
    var once := LikeInList(posts, id);
    var twice := LikeInList(once, id);
    forall i | 0 <= i < |posts|
      ensures twice[i] == posts[i]
    {
      if posts[i].id == id {
        assert once[i] == ToggleLike(posts[i]);
        assert twice[i] == ToggleLike(ToggleLike(posts[i]));
      }
    }
  }

  /** The post `handlePost` creates from the draft. */
  function NewPost(id: string, content: string, category: string): (p: Post)
    ensures p.id == id && p.content == content && p.category == category
    ensures p.author == "You" && p.avatar == "YO" && p.time == "Just now"
    ensures p.likes == 0 && p.comments == 0 && !p.liked
  {
    MockData.CommunityPost(id, "You", "YO", content, category, 0, 0, "Just now", false)
  }

  /**
   * A post just written shows at the top of the feed under the all filter and
   * under its own category; under any other filter the shown feed is what it
   * was before.
   */
  lemma NewPostShown(posts: seq<Post>, p: Post, filter: string)
    ensures filter == "all" || filter == p.category ==>
      Filtered([p] + posts, filter) == [p] + Filtered(posts, filter)
    ensures filter != "all" && filter != p.category ==>
      Filtered([p] + posts, filter) == Filtered(posts, filter)
  {
    FilteredPreservesOrder([p], posts, filter);
    if filter != "all" {
      assert Filter([p], (q: Post) => q.category == filter) ==
        (if p.category == filter then [p] else []) by {
        assert [p][1..] == [];
      }
    }
  }

  /** The page's state: the feed, the selected filter, and the draft with its category. */
  class CommunityPage {
    var posts: seq<Post>
    var filter: string
    var newPost: string
    var newPostCategory: string

    constructor ()
      ensures posts == MockData.Posts && filter == "all"
      ensures newPost == "" && newPostCategory == "crop"
    {
      posts := MockData.Posts;
      filter := "all";
      newPost := "";
      newPostCategory := "crop";
    }

    method SetFilter(f: string)
      modifies this`filter
      ensures filter == f
    {
      filter := f;
    }

    method SetDraft(text: string)
      modifies this`newPost
      ensures newPost == text
    {
      newPost := text;
    }

    method SetDraftCategory(c: string)
      modifies this`newPostCategory
      ensures newPostCategory == c
    {
      newPostCategory := c;
    }

    /** `handleLike`. */
    method HandleLike(id: string)
      modifies this`posts
      ensures posts == LikeInList(old(posts), id)
    {
      posts := LikeInList(posts, id);
    }

    /**
     * `handlePost`. A blank draft changes nothing and shows no notice.
     * Otherwise the draft, untrimmed, becomes a new post in the draft's
     * category, put in front of the feed, the draft is cleared and the success
     * notice is shown.
     */
    method HandlePost(freshId: string, t: string -> string) returns (posted: bool, toast: Option<Toast>)
      modifies this`posts, this`newPost
      ensures posted == !IsBlank(old(newPost))
      ensures !posted ==> posts == old(posts) && newPost == old(newPost) && toast == None
      ensures posted ==>
        && posts == [NewPost(freshId, old(newPost), newPostCategory)] + old(posts)
        && newPost == ""
        && toast == Some(Success(t("community.post") + "!"))
    {
      if Trim(newPost) == "" {
        return false, None;
      }
      var post := NewPost(freshId, newPost, newPostCategory);
      posts := [post] + posts;
      newPost := "";
      posted, toast := true, Some(Success(t("community.post") + "!"));
    }
  }
}
