/** The posts router (app/routers/posts.py): the feed built by `get_posts`
    from separately fetched rows, the like toggles, the owner-guarded update
    and delete, post and comment creation, and the WebSocket registry.

    Read-only handlers take the rows their queries return as inputs, in the
    order the database returns them; the handlers that write are methods of
    `PostsDb`, whose fields are the tables. */
module Posts {
  import opened Basics
  import opened Tables
  import Auth

  /** A `posts` row; `created_at` is a timestamp compared as a number. */
  datatype PostRow = PostRow(id: string, userId: string, content: Option<string>,
                             attachments: Option<seq<string>>, attachmentCount: int,
                             createdAt: int)

  /** A `comments` row. */
  datatype CommentRow = CommentRow(id: string, postId: string, userId: string, content: string,
                                   parentId: Option<string>, createdAt: int)

  /** A row of `likes` (`target` is the post_id) or of `comment_likes`
      (`target` is the comment_id). */
  datatype Like = Like(target: string, userId: string)

  /** A comment as the feed returns it (app/schemas.py, `Comment`). */
  datatype CommentView = CommentView(row: CommentRow, users: Option<UserRow>, likeCount: nat,
                                     likedByMe: bool)

  /** A post as the feed returns it (app/schemas.py, `Post`). */
  datatype PostView = PostView(row: PostRow, users: Option<UserRow>, comments: seq<CommentView>,
                               likeCount: nat, likedByMe: bool)

  /** `{"liked": ..., "like_count": ...}` of the toggles. */
  datatype LikeState = LikeState(liked: bool, likeCount: nat)

  // ---------------------------------------------------------------------------
  // The joins of get_posts

  /** The like rows whose target is `target`, in table order. */
  function LikesFor(likes: seq<Like>, target: string): (r: seq<Like>)
    ensures |r| <= |likes|
    ensures forall l :: l in r <==> l in likes && l.target == target
  {
    if |likes| == 0 then []
    else
      var last := likes[|likes| - 1];
      assert likes == likes[..|likes| - 1] + [last];
      LikesFor(likes[..|likes| - 1], target) + (if last.target == target then [last] else [])
  }

  /** The comment rows of post `postId`, in fetched order. */
  function CommentsFor(comments: seq<CommentRow>, postId: string): (r: seq<CommentRow>)
    ensures |r| <= |comments|
    ensures forall c :: c in r <==> c in comments && c.postId == postId
  {
    if |comments| == 0 then []
    else
      var last := comments[|comments| - 1];
      assert comments == comments[..|comments| - 1] + [last];
      CommentsFor(comments[..|comments| - 1], postId) + (if last.postId == postId then [last] else [])
  }

  /** `LikesFor` keeps every row with the target as often as the table holds
      it, and no other row. */
  lemma {:induction false} LikesForCounts(likes: seq<Like>, target: string)
    ensures forall l :: multiset(LikesFor(likes, target))[l]
                          == if l.target == target then multiset(likes)[l] else 0
  {
    if |likes| > 0 {
      var init, last := likes[..|likes| - 1], likes[|likes| - 1];
      LikesForCounts(init, target);
      assert likes == init + [last];
      assert multiset(likes) == multiset(init) + multiset{last};
    }
  }

  /** `CommentsFor` keeps every comment of the post as often as the fetched
      rows hold it, and no other row. */
  lemma {:induction false} CommentsForCounts(comments: seq<CommentRow>, postId: string)
    ensures forall c :: multiset(CommentsFor(comments, postId))[c]
                          == if c.postId == postId then multiset(comments)[c] else 0
  {
    if |comments| > 0 {
      var init, last := comments[..|comments| - 1], comments[|comments| - 1];
      CommentsForCounts(init, postId);
      assert comments == init + [last];
      assert multiset(comments) == multiset(init) + multiset{last};
    }
  }

  /** `user_id` of `get_posts`: the viewer's "sub", or None for an anonymous
      (or empty) identity. */
  function ViewerId(currentUser: Option<Auth.Claims>): Option<string> {
    if currentUser.Some? && |currentUser.value| > 0 && "sub" in currentUser.value
    then Some(currentUser.value["sub"]) else None
  }

  /** `any(l["user_id"] == user_id for l in likes) if user_id else False`. */
  predicate LikedByMe(likes: seq<Like>, viewer: Option<string>) {
    viewer.Some? && viewer.value != "" && exists l :: l in likes && l.userId == viewer.value
  }

  /** The comment rows with their author attached and no like information
      yet, as `comments_map` holds them. */
  function Authored(cs: seq<CommentRow>, commentAuthors: seq<UserRow>): (r: seq<CommentView>)
    ensures |r| == |cs|
  {
    seq(|cs|, i requires 0 <= i < |cs| =>
      CommentView(cs[i], UserById(commentAuthors, cs[i].userId), 0, false))
  }

  /** The comment rows of a post with author and like information. */
  function CommentViews(cs: seq<CommentRow>, commentAuthors: seq<UserRow>, commentLikes: seq<Like>,
                        viewer: Option<string>): (r: seq<CommentView>)
    ensures |r| == |cs|
  {
    seq(|cs|, i requires 0 <= i < |cs| =>
      CommentView(cs[i], UserById(commentAuthors, cs[i].userId),
                  |LikesFor(commentLikes, cs[i].id)|,
                  LikedByMe(LikesFor(commentLikes, cs[i].id), viewer)))
  }

  /** The comment likes `get_posts` sees: none when there are no comments
      (the query is not made) or when the query raised (lines 93-94). */
  function CommentLikesSeen(comments: seq<CommentRow>, fetched: Fetch<seq<Like>>): seq<Like> {
    if |comments| == 0 || fetched.FetchRaised? then [] else fetched.data
  }

  /** The entry `get_posts` builds for one post. */
  function PostEntry(p: PostRow, authors: seq<UserRow>, comments: seq<CommentRow>,
                     commentAuthors: seq<UserRow>, seen: seq<Like>, likes: seq<Like>,
                     viewer: Option<string>): PostView
  {
    PostView(p, UserById(authors, p.userId),
             SortByCreated(CommentViews(CommentsFor(comments, p.id), commentAuthors, seen, viewer)),
             |LikesFor(likes, p.id)|, LikedByMe(LikesFor(likes, p.id), viewer))
  }

  /** The entries `get_posts` builds for the posts, in order. */
  function PostEntries(posts: seq<PostRow>, authors: seq<UserRow>, comments: seq<CommentRow>,
                       commentAuthors: seq<UserRow>, seen: seq<Like>, likes: seq<Like>,
                       viewer: Option<string>): (r: seq<PostView>)
    ensures |r| == |posts|
  {
    if |posts| == 0 then []
    else PostEntries(posts[..|posts| - 1], authors, comments, commentAuthors, seen, likes, viewer)
         + [PostEntry(posts[|posts| - 1], authors, comments, commentAuthors, seen, likes, viewer)]
  }

  lemma {:induction false} PostEntriesAt(posts: seq<PostRow>, authors: seq<UserRow>, comments: seq<CommentRow>,
                                         commentAuthors: seq<UserRow>, seen: seq<Like>, likes: seq<Like>,
                                         viewer: Option<string>, x: nat)
    requires x < |posts|
    ensures PostEntries(posts, authors, comments, commentAuthors, seen, likes, viewer)[x]
            == PostEntry(posts[x], authors, comments, commentAuthors, seen, likes, viewer)
  {
    if x < |posts| - 1 {
      PostEntriesAt(posts[..|posts| - 1], authors, comments, commentAuthors, seen, likes, viewer, x);
    }
  }

  lemma AuthoredAppend(cs: seq<CommentRow>, c: CommentRow, commentAuthors: seq<UserRow>)
    ensures Authored(cs + [c], commentAuthors)
            == Authored(cs, commentAuthors) + [CommentView(c, UserById(commentAuthors, c.userId), 0, false)]
  {
    assert forall i :: 0 <= i < |cs| ==> (cs + [c])[i] == cs[i];
  }

  // ---------------------------------------------------------------------------
  // `sorted(p_comments, key=lambda x: x["created_at"])`: a stable sort

  predicate SortedByCreated(s: seq<CommentView>) {
    forall i, j :: 0 <= i < j < |s| ==> s[i].row.createdAt <= s[j].row.createdAt
  }

  /** Puts `c` after every element whose key is not larger than its own. */
  function InsertByCreated(s: seq<CommentView>, c: CommentView): (r: seq<CommentView>)
    ensures |r| == |s| + 1
  {
    if |s| == 0 then [c]
    else if c.row.createdAt < s[0].row.createdAt then [c] + s
    else [s[0]] + InsertByCreated(s[1..], c)
  }

  /** `sorted(s, key=created_at)`, built as an insertion sort. */
  function SortByCreated(s: seq<CommentView>): (r: seq<CommentView>)
    ensures |r| == |s|
  {
    if |s| == 0 then []
    else InsertByCreated(SortByCreated(s[..|s| - 1]), s[|s| - 1])
  }

  lemma {:induction false} InsertIsPermutation(s: seq<CommentView>, c: CommentView)
    ensures multiset(InsertByCreated(s, c)) == multiset(s) + multiset{c}
  {
    if |s| > 0 && c.row.createdAt >= s[0].row.createdAt {
      InsertIsPermutation(s[1..], c);
      assert s == [s[0]] + s[1..];
    }
  }

  lemma {:induction false} InsertMembers(s: seq<CommentView>, c: CommentView)
    ensures forall x :: x in InsertByCreated(s, c) ==> x == c || x in s
  {
    if |s| > 0 && c.row.createdAt >= s[0].row.createdAt {
      InsertMembers(s[1..], c);
    }
  }

  lemma {:induction false} InsertKeepsSorted(s: seq<CommentView>, c: CommentView)
    requires SortedByCreated(s)
    ensures SortedByCreated(InsertByCreated(s, c))
  {
    if |s| > 0 && c.row.createdAt >= s[0].row.createdAt {
      var tail := s[1..];
      var rest := InsertByCreated(tail, c);
      InsertKeepsSorted(tail, c);
      InsertMembers(tail, c);
      forall k | 0 <= k < |rest| ensures s[0].row.createdAt <= rest[k].row.createdAt {
        assert rest[k] in rest;
        if rest[k] != c {
          var j :| 0 <= j < |tail| && tail[j] == rest[k];
          assert tail[j] == s[j + 1];
        }
      }
      var r := [s[0]] + rest;
      assert forall i :: 0 < i < |r| ==> r[i] == rest[i - 1];
    }
  }

  /** The sort orders by creation time and loses or adds no comment. */
  lemma {:induction false} SortIsSortedPermutation(s: seq<CommentView>)
    ensures SortedByCreated(SortByCreated(s))
    ensures multiset(SortByCreated(s)) == multiset(s)
  {
    if |s| > 0 {
      var init := s[..|s| - 1];
      SortIsSortedPermutation(init);
      InsertKeepsSorted(SortByCreated(init), s[|s| - 1]);
      InsertIsPermutation(SortByCreated(init), s[|s| - 1]);
      assert s == init + [s[|s| - 1]];
    }
  }

  /** The elements of `s` with key `t`, in their order in `s`. */
  function WithCreated(s: seq<CommentView>, t: int): seq<CommentView> {
    if |s| == 0 then []
    else (if s[0].row.createdAt == t then [s[0]] else []) + WithCreated(s[1..], t)
  }

  lemma {:induction false} WithCreatedAppend(a: seq<CommentView>, b: seq<CommentView>, t: int)
    ensures WithCreated(a + b, t) == WithCreated(a, t) + WithCreated(b, t)
  {
    if |a| > 0 {
      assert (a + b)[1..] == a[1..] + b;
      WithCreatedAppend(a[1..], b, t);
    } else {
      assert a + b == b;
    }
  }

  lemma {:induction false} WithCreatedNone(s: seq<CommentView>, t: int)
    requires forall i :: 0 <= i < |s| ==> s[i].row.createdAt > t
    ensures WithCreated(s, t) == []
  {
    if |s| > 0 {
      WithCreatedNone(s[1..], t);
    }
  }

  lemma {:induction false} InsertStable(s: seq<CommentView>, c: CommentView, t: int)
    requires SortedByCreated(s)
    ensures WithCreated(InsertByCreated(s, c), t)
            == WithCreated(s, t) + (if c.row.createdAt == t then [c] else [])
  {
    if |s| == 0 {
    } else if c.row.createdAt < s[0].row.createdAt {
      assert InsertByCreated(s, c) == [c] + s;
      assert ([c] + s)[1..] == s;
      if c.row.createdAt == t {
        assert forall i :: 0 <= i < |s| ==> s[0].row.createdAt <= s[i].row.createdAt;
        WithCreatedNone(s, t);
      }
    } else {
      var tail := s[1..];
      assert SortedByCreated(tail) by {
        forall i, j | 0 <= i < j < |tail| ensures tail[i].row.createdAt <= tail[j].row.createdAt {
          assert tail[i] == s[i + 1] && tail[j] == s[j + 1];
        }
      }
      InsertStable(tail, c, t);
      var rest := InsertByCreated(tail, c);
      assert InsertByCreated(s, c) == [s[0]] + rest;
      assert ([s[0]] + rest)[1..] == rest;
      var head := if s[0].row.createdAt == t then [s[0]] else [];
      assert WithCreated(InsertByCreated(s, c), t) == head + WithCreated(rest, t);
      assert WithCreated(s, t) == head + WithCreated(tail, t);
    }
  }

  /** Sorting keeps, for every key, the elements with that key in their
      original order: the sort is stable. */
  lemma {:induction false} SortIsStable(s: seq<CommentView>, t: int)
    ensures WithCreated(SortByCreated(s), t) == WithCreated(s, t)
  {
    if |s| > 0 {
      var init, last := s[..|s| - 1], s[|s| - 1];
      var sortedInit := SortByCreated(init);
      var single := if last.row.createdAt == t then [last] else [];
      assert SortByCreated(s) == InsertByCreated(sortedInit, last);
      SortIsSortedPermutation(init);
      InsertStable(sortedInit, last, t);
      SortIsStable(init, t);
      assert [last][1..] == [];
      assert WithCreated([last], t) == single;
      WithCreatedAppend(init, [last], t);
      assert s == init + [last];
    }
  }

  /** The feed's comments of one post are exactly its comment rows, ordered
      by creation time, rows created at the same time in fetched order. */
  lemma PostCommentsAreItsRowsByTime(cs: seq<CommentRow>, postId: string, commentAuthors: seq<UserRow>,
                                     commentLikes: seq<Like>, viewer: Option<string>, t: int)
    ensures var out := SortByCreated(CommentViews(CommentsFor(cs, postId), commentAuthors, commentLikes, viewer));
            SortedByCreated(out)
            && (forall v :: v in out <==> v in CommentViews(CommentsFor(cs, postId), commentAuthors,
                                                           commentLikes, viewer))
            && (forall v :: v in out ==> v.row in cs && v.row.postId == postId)
            && WithCreated(out, t) == WithCreated(CommentViews(CommentsFor(cs, postId), commentAuthors,
                                                               commentLikes, viewer), t)
  {
    var views := CommentViews(CommentsFor(cs, postId), commentAuthors, commentLikes, viewer);
    var out := SortByCreated(views);
    SortIsSortedPermutation(views);
    forall v | v in out ensures v in views {
      assert v in multiset(out);
    }
    forall v | v in views ensures v in out {
      assert v in multiset(views);
    }
    forall v | v in views ensures v.row in cs && v.row.postId == postId {
      var i :| 0 <= i < |views| && views[i] == v;
    }
    SortIsStable(views, t);
  }

  /** `like_count` counts the rows for the post, and `liked_by_me` holds
      exactly when a viewer with a non-empty id has one of them. */
  lemma LikeFieldsMeaning(likes: seq<Like>, postId: string, viewer: Option<string>)
    ensures LikedByMe(LikesFor(likes, postId), viewer)
            <==> viewer.Some? && viewer.value != "" && Like(postId, viewer.value) in likes
  {
    if viewer.Some? && viewer.value != "" && Like(postId, viewer.value) in likes {
      assert Like(postId, viewer.value) in LikesFor(likes, postId);
    }
  }

  /** Groups rows by target in one pass, as the loops building
      `comment_likes_map` and `likes_map` do. */
  method GroupByTarget(rows: seq<Like>) returns (m: map<string, seq<Like>>)
    ensures forall t :: GetOr(m, t, []) == LikesFor(rows, t)
  {
    m := map[];
    var i := 0;
    while i < |rows|
      invariant 0 <= i <= |rows|
      invariant forall t :: GetOr(m, t, []) == LikesFor(rows[..i], t)
    {
      var l := rows[i];
      if l.target !in m {
        m := m[l.target := []];
      }
      m := m[l.target := m[l.target] + [l]];
      assert rows[..i + 1][..i] == rows[..i];
      i := i + 1;
    }
    assert rows[..i] == rows;
  }

  /** The loop building `comments_map` and `all_comment_ids` (lines 74-80). */
  method GroupComments(comments: seq<CommentRow>, commentAuthors: seq<UserRow>)
    returns (commentsMap: map<string, seq<CommentView>>, allCommentIds: seq<string>)
    ensures |allCommentIds| == |comments|
    ensures forall pid :: GetOr(commentsMap, pid, []) == Authored(CommentsFor(comments, pid), commentAuthors)
  {
    commentsMap := map[];
    allCommentIds := [];
    var i := 0;
    while i < |comments|
      invariant 0 <= i <= |comments|
      invariant |allCommentIds| == i
      invariant forall pid :: GetOr(commentsMap, pid, []) == Authored(CommentsFor(comments[..i], pid), commentAuthors)
    {
      var c := comments[i];
      var pid := c.postId;
      if pid !in commentsMap {
        commentsMap := commentsMap[pid := []];
      }
      commentsMap := commentsMap[pid := commentsMap[pid] + [CommentView(c, UserById(commentAuthors, c.userId), 0, false)]];
      allCommentIds := allCommentIds + [c.id];
      assert comments[..i + 1][..i] == comments[..i];
      assert comments[..i + 1][i] == c;
      forall q ensures GetOr(commentsMap, q, []) == Authored(CommentsFor(comments[..i + 1], q), commentAuthors) {
        assert CommentsFor(comments[..i + 1], q)
               == CommentsFor(comments[..i], q) + (if c.postId == q then [c] else []);
        AuthoredAppend(CommentsFor(comments[..i], q), c, commentAuthors);
      }
      i := i + 1;
    }
    assert comments[..i] == comments;
  }

  /** The loop of lines 114-118 over one post's comments: each gets the
      count of its comment likes and whether the viewer is among them. */
  method AttachCommentLikes(pComments: seq<CommentView>, commentLikesMap: map<string, seq<Like>>,
                            viewer: Option<string>)
    returns (enriched: seq<CommentView>)
    ensures |enriched| == |pComments|
    ensures forall x :: 0 <= x < |pComments| ==>
              var cLikes := GetOr(commentLikesMap, pComments[x].row.id, []);
              enriched[x] == pComments[x].(likeCount := |cLikes|, likedByMe := LikedByMe(cLikes, viewer))
  {
    enriched := [];
    var q := 0;
    while q < |pComments|
      invariant 0 <= q <= |pComments|
      invariant |enriched| == q
      invariant forall x :: 0 <= x < q ==>
                  var cLikes := GetOr(commentLikesMap, pComments[x].row.id, []);
                  enriched[x] == pComments[x].(likeCount := |cLikes|, likedByMe := LikedByMe(cLikes, viewer))
    {
      var c := pComments[q];
      var cLikes := GetOr(commentLikesMap, c.row.id, []);
      enriched := enriched + [c.(likeCount := |cLikes|, likedByMe := LikedByMe(cLikes, viewer))];
      q := q + 1;
    }
  }

  /** The comments of a post, once their likes are attached, are the views
      the join specifies. */
  lemma EnrichedAreCommentViews(cs: seq<CommentRow>, commentAuthors: seq<UserRow>, seen: seq<Like>,
                                viewer: Option<string>, commentLikesMap: map<string, seq<Like>>,
                                enriched: seq<CommentView>)
    requires forall cid :: GetOr(commentLikesMap, cid, []) == LikesFor(seen, cid)
    requires |enriched| == |cs|
    requires forall x :: 0 <= x < |cs| ==>
               var cLikes := GetOr(commentLikesMap, Authored(cs, commentAuthors)[x].row.id, []);
               enriched[x] == Authored(cs, commentAuthors)[x].(likeCount := |cLikes|,
                                                               likedByMe := LikedByMe(cLikes, viewer))
    ensures enriched == CommentViews(cs, commentAuthors, seen, viewer)
  {
    var views := CommentViews(cs, commentAuthors, seen, viewer);
    forall x | 0 <= x < |cs| ensures enriched[x] == views[x] {
      assert Authored(cs, commentAuthors)[x].row == cs[x];
    }
  }

  /** `get_posts` (lines 40-131): one entry per fetched post, in fetched order,
      with its author, its comments (author and like information attached,
      ordered by creation time) and its like information. */
  method GetPosts(currentUser: Option<Auth.Claims>, posts: seq<PostRow>, authors: seq<UserRow>,
                  comments: seq<CommentRow>, commentAuthors: seq<UserRow>,
                  commentLikes: Fetch<seq<Like>>, likes: seq<Like>)
    returns (r: seq<PostView>)
    ensures |r| == |posts|
    ensures forall i :: 0 <= i < |r| ==>
              var p, viewer := posts[i], ViewerId(currentUser);
              r[i].row == p
              && r[i].users == UserById(authors, p.userId)
              && r[i].likeCount == |LikesFor(likes, p.id)|
              && r[i].likedByMe == LikedByMe(LikesFor(likes, p.id), viewer)
              && r[i].comments == SortByCreated(CommentViews(CommentsFor(comments, p.id), commentAuthors,
                                                             CommentLikesSeen(comments, commentLikes),
                                                             viewer))
  {
    if |posts| == 0 {
      return [];
    }
    var userId := ViewerId(currentUser);
    var commentsMap, allCommentIds := GroupComments(comments, commentAuthors);

    var commentLikesMap: map<string, seq<Like>> := map[];
    if |allCommentIds| > 0 && commentLikes.Fetched? {
      commentLikesMap := GroupByTarget(commentLikes.data);
    }
    ghost var seen := CommentLikesSeen(comments, commentLikes);
    assert forall cid :: GetOr(commentLikesMap, cid, []) == LikesFor(seen, cid);

    var likesMap := GroupByTarget(likes);
    r := BuildPostViews(posts, authors, comments, commentAuthors, seen, likes, userId,
                        commentsMap, commentLikesMap, likesMap);
    forall x | 0 <= x < |posts|
      ensures r[x] == PostEntry(posts[x], authors, comments, commentAuthors, seen, likes, userId)
    {
      PostEntriesAt(posts, authors, comments, commentAuthors, seen, likes, userId, x);
    }
  }

  /** One iteration of the loop of lines 105-129: the post with its author,
      its comments with their likes, sorted, and its own likes. */
  method BuildPostView(p: PostRow, authors: seq<UserRow>, comments: seq<CommentRow>,
                       commentAuthors: seq<UserRow>, ghost seen: seq<Like>, ghost likes: seq<Like>,
                       viewer: Option<string>, commentsMap: map<string, seq<CommentView>>,
                       commentLikesMap: map<string, seq<Like>>, likesMap: map<string, seq<Like>>)
    returns (entry: PostView)
    requires GetOr(commentsMap, p.id, []) == Authored(CommentsFor(comments, p.id), commentAuthors)
    requires forall cid :: GetOr(commentLikesMap, cid, []) == LikesFor(seen, cid)
    requires GetOr(likesMap, p.id, []) == LikesFor(likes, p.id)
    ensures entry == PostEntry(p, authors, comments, commentAuthors, seen, likes, viewer)
  {
    var pComments := GetOr(commentsMap, p.id, []);
    var enriched := AttachCommentLikes(pComments, commentLikesMap, viewer);
    EnrichedAreCommentViews(CommentsFor(comments, p.id), commentAuthors, seen, viewer, commentLikesMap, enriched);
    var postLikes := GetOr(likesMap, p.id, []);
    entry := PostView(p, UserById(authors, p.userId), SortByCreated(enriched), |postLikes|,
                      LikedByMe(postLikes, viewer));
  }

  /** One more post of the prefix gives one more entry. */
  lemma PostEntriesSnoc(posts: seq<PostRow>, authors: seq<UserRow>, comments: seq<CommentRow>,
                        commentAuthors: seq<UserRow>, seen: seq<Like>, likes: seq<Like>,
                        viewer: Option<string>, k: nat)
    requires k < |posts|
    ensures PostEntries(posts[..k + 1], authors, comments, commentAuthors, seen, likes, viewer)
            == PostEntries(posts[..k], authors, comments, commentAuthors, seen, likes, viewer)
               + [PostEntry(posts[k], authors, comments, commentAuthors, seen, likes, viewer)]
  {
    assert posts[..k + 1][..k] == posts[..k];
    assert posts[..k + 1][k] == posts[k];
  }

  /** The loop of lines 105-129: one entry per post, from the three maps. */
  method BuildPostViews(posts: seq<PostRow>, authors: seq<UserRow>, comments: seq<CommentRow>,
                        commentAuthors: seq<UserRow>, ghost seen: seq<Like>, ghost likes: seq<Like>,
                        viewer: Option<string>, commentsMap: map<string, seq<CommentView>>,
                        commentLikesMap: map<string, seq<Like>>, likesMap: map<string, seq<Like>>)
    returns (r: seq<PostView>)
    requires forall pid :: GetOr(commentsMap, pid, []) == Authored(CommentsFor(comments, pid), commentAuthors)
    requires forall cid :: GetOr(commentLikesMap, cid, []) == LikesFor(seen, cid)
    requires forall pid :: GetOr(likesMap, pid, []) == LikesFor(likes, pid)
    ensures r == PostEntries(posts, authors, comments, commentAuthors, seen, likes, viewer)
  {
    r := [];
    var k := 0;
    while k < |posts|
      invariant 0 <= k <= |posts|
      invariant r == PostEntries(posts[..k], authors, comments, commentAuthors, seen, likes, viewer)
    {
      var entry := BuildPostView(posts[k], authors, comments, commentAuthors, seen, likes, viewer,
                                 commentsMap, commentLikesMap, likesMap);
      PostEntriesSnoc(posts, authors, comments, commentAuthors, seen, likes, viewer, k);
      r := r + [entry];
      k := k + 1;
    }
    assert posts[..k] == posts;
  }

  // ---------------------------------------------------------------------------
  // The like toggles

  /** The table without any row equal to `l`, other rows in order. */
  function WithoutLike(likes: seq<Like>, l: Like): (r: seq<Like>)
    ensures forall x :: x in r <==> x in likes && x != l
  {
    if |likes| == 0 then []
    else
      var last := likes[|likes| - 1];
      assert likes == likes[..|likes| - 1] + [last];
      WithoutLike(likes[..|likes| - 1], l) + (if last == l then [] else [last])
  }

  /** A toggle's effect on a likes table: delete every row for the pair if
      there is one, otherwise insert one. */
  function Toggled(likes: seq<Like>, target: string, userId: string): seq<Like> {
    var l := Like(target, userId);
    if l in likes then WithoutLike(likes, l) else likes + [l]
  }

  lemma {:induction false} WithoutAbsent(likes: seq<Like>, l: Like)
    requires l !in likes
    ensures WithoutLike(likes, l) == likes
  {
    if |likes| > 0 {
      assert likes == likes[..|likes| - 1] + [likes[|likes| - 1]];
      WithoutAbsent(likes[..|likes| - 1], l);
    }
  }

  /** After a toggle the pair is liked exactly when it was not before. */
  lemma ToggleFlips(likes: seq<Like>, target: string, userId: string)
    ensures (Like(target, userId) in Toggled(likes, target, userId)) == (Like(target, userId) !in likes)
  {
  }

  /** Toggling an unliked pair twice gives the table back. */
  lemma ToggleTwiceRestores(likes: seq<Like>, target: string, userId: string)
    requires Like(target, userId) !in likes
    ensures Toggled(Toggled(likes, target, userId), target, userId) == likes
  {
    var l := Like(target, userId);
    var once := likes + [l];
    assert once[..|once| - 1] == likes;
    WithoutAbsent(likes, l);
  }

  /** A toggle touches no row of another (target, user) pair. */
  lemma ToggleKeepsOtherPairs(likes: seq<Like>, target: string, userId: string)
    ensures WithoutLike(Toggled(likes, target, userId), Like(target, userId))
            == WithoutLike(likes, Like(target, userId))
  {
    var l := Like(target, userId);
    if l in likes {
      WithoutAbsent(WithoutLike(likes, l), l);
    } else {
      var once := likes + [l];
      assert once[..|once| - 1] == likes;
    }
  }

  // ---------------------------------------------------------------------------
  // Update and delete

  /** `post_update.model_dump(exclude_unset=True)`: a field is None when the
      request left it unset, and an explicitly sent null is kept. */
  datatype PostPatch = PostPatch(content: Option<Option<string>>,
                                 attachments: Option<Option<seq<string>>>,
                                 attachmentCount: Option<int>)

  function Patched(p: PostRow, patch: PostPatch): PostRow {
    p.(content := if patch.content.Some? then patch.content.value else p.content,
       attachments := if patch.attachments.Some? then patch.attachments.value else p.attachments,
       attachmentCount := if patch.attachmentCount.Some? then patch.attachmentCount.value
                          else p.attachmentCount)
  }

  /** `update(...).eq("id", post_id)`: every row with that id is patched. */
  function PatchPosts(posts: seq<PostRow>, id: string, patch: PostPatch): (r: seq<PostRow>)
    ensures |r| == |posts|
  {
    seq(|posts|, i requires 0 <= i < |posts| =>
      if posts[i].id == id then Patched(posts[i], patch) else posts[i])
  }

  /** The post selected by `eq("id", post_id)`. */
  function FirstPostWithId(posts: seq<PostRow>, id: string): (r: Option<PostRow>)
    ensures r.None? <==> forall i :: 0 <= i < |posts| ==> posts[i].id != id
    ensures r.Some? ==> exists i :: 0 <= i < |posts| && posts[i] == r.value && posts[i].id == id
                          && forall j :: 0 <= j < i ==> posts[j].id != id
  {
    if |posts| == 0 then None
    else if posts[0].id == id then Some(posts[0])
    else
      var r := FirstPostWithId(posts[1..], id);
      assert forall i :: 0 < i < |posts| ==> posts[1..][i - 1] == posts[i];
      r
  }

  /** `delete().eq("id", post_id)`. */
  function WithoutPost(posts: seq<PostRow>, id: string): (r: seq<PostRow>)
    ensures forall p :: p in r <==> p in posts && p.id != id
  {
    if |posts| == 0 then []
    else
      var last := posts[|posts| - 1];
      assert posts == posts[..|posts| - 1] + [last];
      WithoutPost(posts[..|posts| - 1], id) + (if last.id == id then [] else [last])
  }

  /** Applying a patch a second time changes nothing, and no patch moves a
      post to another id or owner. */
  lemma PatchIdempotentKeepsOwner(p: PostRow, patch: PostPatch)
    ensures Patched(Patched(p, patch), patch) == Patched(p, patch)
    ensures Patched(p, patch).id == p.id && Patched(p, patch).userId == p.userId
  {
  }

  /** The first post with the id, found in the patched table, is the patched
      first post: the row `update_post` returns. */
  lemma {:induction false} PatchedFirstPost(posts: seq<PostRow>, id: string, patch: PostPatch)
    requires FirstPostWithId(posts, id).Some?
    ensures FirstPostWithId(PatchPosts(posts, id, patch), id)
            == Some(Patched(FirstPostWithId(posts, id).value, patch))
  {
    var ps := PatchPosts(posts, id, patch);
    if posts[0].id != id {
      assert PatchPosts(posts[1..], id, patch) == ps[1..];
      PatchedFirstPost(posts[1..], id, patch);
    }
  }

  /** After a delete the post is gone and every other post is kept. */
  lemma DeleteRemovesOnlyThePost(posts: seq<PostRow>, id: string)
    ensures FirstPostWithId(WithoutPost(posts, id), id).None?
    ensures forall p :: p in posts && p.id != id ==> p in WithoutPost(posts, id)
  {
    var r := WithoutPost(posts, id);
    forall i | 0 <= i < |r| ensures r[i].id != id {
      assert r[i] in r;
    }
  }


  /** The tables the handlers write, and the WebSocket registry. */
  class PostsDb {
    var posts: seq<PostRow>
    var comments: seq<CommentRow>
    var likes: seq<Like>
    var commentLikes: seq<Like>
    var users: seq<UserRow>
    var connections: seq<nat>

    constructor (posts0: seq<PostRow>, comments0: seq<CommentRow>, likes0: seq<Like>,
                 commentLikes0: seq<Like>, users0: seq<UserRow>)
      ensures posts == posts0 && comments == comments0 && likes == likes0
      ensures commentLikes == commentLikes0 && users == users0 && connections == []
    {
      posts, comments, likes, commentLikes, users := posts0, comments0, likes0, commentLikes0, users0;
      connections := [];
    }

    /** `create_post` (lines 133-167). An empty insert result raises a 400
        inside the `try`, which the blanket handler turns into a 500. */
    method CreatePost(content: Option<string>, attachments: Option<seq<string>>, attachmentCount: int,
                      userId: string, newId: string, createdAt: int, write: Write)
      returns (r: Response<PostView>)
      modifies this`posts
      ensures var row := PostRow(newId, userId, content, attachments, attachmentCount, createdAt);
              match write
              case Stored =>
                posts == old(posts) + [row]
                && r == Ok(PostView(row, FirstUserWithId(users, userId), [], 0, false))
              case NoData =>
                posts == old(posts)
                && r == Raised(HttpError(SERVER_ERROR, "400: Failed to create post"))
              case WriteFailed(m) =>
                posts == old(posts) && r == Raised(HttpError(SERVER_ERROR, m))
    {
      var row := PostRow(newId, userId, content, attachments, attachmentCount, createdAt);
      match write {
        case NoData =>
          return Raised(HttpError(SERVER_ERROR, "400: Failed to create post"));
        case WriteFailed(m) =>
          return Raised(HttpError(SERVER_ERROR, m));
        case Stored =>
          posts := posts + [row];
          var author := FirstUserWithId(users, userId);
          r := Ok(PostView(row, author, [], 0, false));
      }
    }

    /** `add_comment` (lines 198-230). */
    method AddComment(postId: string, content: string, parentId: Option<string>, userId: string,
                      newId: string, createdAt: int, write: Write)
      returns (r: Response<CommentView>)
      modifies this`comments
      ensures var row := CommentRow(newId, postId, userId, content, parentId, createdAt);
              match write
              case Stored =>
                comments == old(comments) + [row]
                && r == Ok(CommentView(row, FirstUserWithId(users, userId), 0, false))
              case NoData =>
                comments == old(comments)
                && r == Raised(HttpError(SERVER_ERROR, "400: Failed to add comment"))
              case WriteFailed(m) =>
                comments == old(comments) && r == Raised(HttpError(SERVER_ERROR, m))
    {
      var row := CommentRow(newId, postId, userId, content, parentId, createdAt);
      match write {
        case NoData =>
          return Raised(HttpError(SERVER_ERROR, "400: Failed to add comment"));
        case WriteFailed(m) =>
          return Raised(HttpError(SERVER_ERROR, m));
        case Stored =>
          comments := comments + [row];
          r := Ok(CommentView(row, FirstUserWithId(users, userId), 0, false));
      }
    }

    /** `toggle_like` (lines 169-196). `write` is the outcome of the delete
        (line 183) or the insert (line 187); the count is read after it, and
        the blanket handler turns a failed write into a 500. */
    method ToggleLike(postId: string, userId: string, write: Write) returns (r: Response<LikeState>)
      modifies this`likes
      ensures match write
                case Stored =>
                  likes == Toggled(old(likes), postId, userId)
                  && r == Ok(LikeState(Like(postId, userId) !in old(likes), |LikesFor(likes, postId)|))
                case NoData =>
                  likes == old(likes)
                  && r == Ok(LikeState(Like(postId, userId) !in old(likes), |LikesFor(likes, postId)|))
                case WriteFailed(m) =>
                  likes == old(likes) && r == Raised(HttpError(SERVER_ERROR, m))
    {
      var l := Like(postId, userId);
      var liked := l !in likes;
      match write {
        case WriteFailed(m) =>
          return Raised(HttpError(SERVER_ERROR, m));
        case NoData =>
        case Stored =>
          if l in likes {
            likes := WithoutLike(likes, l);
          } else {
            likes := likes + [l];
          }
      }
      r := Ok(LikeState(liked, |LikesFor(likes, postId)|));
    }

    /** `toggle_comment_like` (lines 232-259): the same over `comment_likes`,
        with the delete at line 246 and the insert at line 250. */
    method ToggleCommentLike(commentId: string, userId: string, write: Write)
      returns (r: Response<LikeState>)
      modifies this`commentLikes
      ensures match write
                case Stored =>
                  commentLikes == Toggled(old(commentLikes), commentId, userId)
                  && r == Ok(LikeState(Like(commentId, userId) !in old(commentLikes),
                                       |LikesFor(commentLikes, commentId)|))
                case NoData =>
                  commentLikes == old(commentLikes)
                  && r == Ok(LikeState(Like(commentId, userId) !in old(commentLikes),
                                       |LikesFor(commentLikes, commentId)|))
                case WriteFailed(m) =>
                  commentLikes == old(commentLikes) && r == Raised(HttpError(SERVER_ERROR, m))
    {
      var l := Like(commentId, userId);
      var liked := l !in commentLikes;
      match write {
        case WriteFailed(m) =>
          return Raised(HttpError(SERVER_ERROR, m));
        case NoData =>
        case Stored =>
          if l in commentLikes {
            commentLikes := WithoutLike(commentLikes, l);
          } else {
            commentLikes := commentLikes + [l];
          }
      }
      r := Ok(LikeState(liked, |LikesFor(commentLikes, commentId)|));
    }

    /** `update_post` (lines 262-289): 404 for a missing post, 403 for a post
        of another user, and the write only after both checks. `write` is the
        outcome of the update at line 281: empty `data` is the 400 of lines
        283-284, which line 287 re-raises, and an exception becomes a 500. */
    method UpdatePost(postId: string, userId: string, patch: PostPatch, write: Write)
      returns (r: Response<PostRow>)
      modifies this`posts
      ensures var found := FirstPostWithId(old(posts), postId);
              (found.None? ==> posts == old(posts)
                               && r == Raised(HttpError(NOT_FOUND, "Post not found")))
              && (found.Some? && found.value.userId != userId ==>
                    posts == old(posts)
                    && r == Raised(HttpError(FORBIDDEN, "Not authorized to edit this post")))
              && (found.Some? && found.value.userId == userId ==>
                    match write
                      case Stored =>
                        posts == PatchPosts(old(posts), postId, patch) && r == Ok(Patched(found.value, patch))
                      case NoData =>
                        posts == old(posts) && r == Raised(HttpError(BAD_REQUEST, "Failed to update post"))
                      case WriteFailed(m) =>
                        posts == old(posts) && r == Raised(HttpError(SERVER_ERROR, m)))
    {
      var found := FirstPostWithId(posts, postId);
      if found.None? {
        return Raised(HttpError(NOT_FOUND, "Post not found"));
      }
      if found.value.userId != userId {
        return Raised(HttpError(FORBIDDEN, "Not authorized to edit this post"));
      }
      match write {
        case NoData =>
          return Raised(HttpError(BAD_REQUEST, "Failed to update post"));
        case WriteFailed(m) =>
          return Raised(HttpError(SERVER_ERROR, m));
        case Stored =>
      }
      posts := PatchPosts(posts, postId, patch);
      PatchedFirstPost(old(posts), postId, patch);
      var updated := FirstPostWithId(posts, postId);
      r := Ok(updated.value);
    }

    /** `delete_post` (lines 291-312). `write` is the outcome of the delete at
        line 308, whose `data` the handler does not look at; an exception
        becomes a 500. */
    method DeletePost(postId: string, userId: string, write: Write) returns (r: Response<string>)
      modifies this`posts
      ensures var found := FirstPostWithId(old(posts), postId);
              (found.None? ==> posts == old(posts)
                               && r == Raised(HttpError(NOT_FOUND, "Post not found")))
              && (found.Some? && found.value.userId != userId ==>
                    posts == old(posts)
                    && r == Raised(HttpError(FORBIDDEN, "Not authorized to delete this post")))
              && (found.Some? && found.value.userId == userId ==>
                    match write
                      case Stored =>
                        posts == WithoutPost(old(posts), postId) && r == Ok("Post deleted successfully")
                      case NoData =>
                        posts == old(posts) && r == Ok("Post deleted successfully")
                      case WriteFailed(m) =>
                        posts == old(posts) && r == Raised(HttpError(SERVER_ERROR, m)))
    {
      var found := FirstPostWithId(posts, postId);
      if found.None? {
        return Raised(HttpError(NOT_FOUND, "Post not found"));
      }
      if found.value.userId != userId {
        return Raised(HttpError(FORBIDDEN, "Not authorized to delete this post"));
      }
      match write {
        case WriteFailed(m) =>
          return Raised(HttpError(SERVER_ERROR, m));
        case NoData =>
        case Stored =>
          posts := WithoutPost(posts, postId);
      }
      r := Ok("Post deleted successfully");
    }

    /** `ConnectionManager.connect` after the accept: the socket is appended. */
    method Connect(socket: nat)
      modifies this`connections
      ensures connections == old(connections) + [socket]
    {
      connections := connections + [socket];
    }

    /** `ConnectionManager.disconnect`: removes the first occurrence, if any. */
    method Disconnect(socket: nat)
      modifies this`connections
      ensures connections == RemoveFirst(old(connections), socket)
    {
      if socket in connections {
        connections := RemoveFirst(connections, socket);
      }
    }
  }

  /** `list.remove(x)` when `x` is present; the list itself otherwise. */
  function RemoveFirst(s: seq<nat>, x: nat): (r: seq<nat>)
    ensures x !in s ==> r == s
    ensures x in s ==> multiset(r) == multiset(s) - multiset{x} && |r| == |s| - 1
  {
    if |s| == 0 then []
    else
      assert s == [s[0]] + s[1..];
      if s[0] == x then s[1..] else [s[0]] + RemoveFirst(s[1..], x)
  }
}
