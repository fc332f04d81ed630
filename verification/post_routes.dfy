/** The post handlers that change the store: create and delete a post, like and
    unlike it, add and delete a comment. Each runs after the authentication gate
    and receives the bound user's id as `caller`. Only the first response a
    handler sends is modelled. */
module PostRoutes {
  import opened Schema
  import opened Http
  import opened JsArray
  import opened Store

  const PostNotFound := Response(404, Msg("Post not found"))
  const NotAuthorised := Response(401, Msg("User not Authorised"))
  const CommentMissing := Response(404, Msg("Comment does not exist"))
  const AlreadyLiked := Response(400, Msg("Post already liked"))
  const NotLiked := Response(400, Msg("Post was not liked"))

  /** `likes.filter(like => like.user.toString() === u)`: the caller's likes;
      there is one exactly when the caller is among the likers. */
  function LikesBy(likes: seq<Like>, u: UserId): (r: seq<Like>)
    ensures |r| <= |likes|
    ensures forall k :: 0 <= k < |r| ==> r[k] == Like(u)
    ensures |r| == 0 <==> u !in Likers(likes)
  {
    if likes == [] then []
    else
      assert Likers(likes) == [likes[0].user] + Likers(likes[1..]);
      (if likes[0].user == u then [likes[0]] else []) + LikesBy(likes[1..], u)
  }

  /** `comments.find(comment => comment.id === cid)`: the first comment with
      that id, if there is one. */
  function FindComment(comments: seq<Comment>, cid: CommentId): (r: Option<Comment>)
    ensures r.None? <==> forall k :: 0 <= k < |comments| ==> comments[k].id != cid
    ensures r.Some? ==> r.value.id == cid && exists k ::
              && 0 <= k < |comments| && comments[k] == r.value
              && forall j :: 0 <= j < k ==> comments[j].id != cid
  {
    if comments == [] then None
    else if comments[0].id == cid then Some(comments[0])
    else
      var r := FindComment(comments[1..], cid);
      if r.Some? then
        var k :| 0 <= k < |comments[1..]| && comments[1..][k] == r.value
          && r.value.id == cid && forall j :: 0 <= j < k ==> comments[1..][j].id != cid;
        assert comments[k + 1] == r.value;
        r
      else r
  }

  /** POST api/post: a new post by the caller, with the caller's name and avatar
      and the text from the body; 500 when the caller's user record is gone. The
      store hands the new post an id no stored post has, so no stored post is
      ever replaced. */
  method CreatePost(db: Db, caller: UserId, text: string, newId: PostId) returns (r: Response)
    requires db.Valid()
    requires newId !in db.posts
    modifies db
    ensures db.Valid()
    ensures db.users == old(db.users) && db.profiles == old(db.profiles)
    ensures forall q :: q in old(db.posts) ==> q in db.posts && db.posts[q] == old(db.posts[q])
    ensures caller !in old(db.users) ==> r == InternalError && db.posts == old(db.posts)
    ensures caller in old(db.users) ==>
      var post := Post(newId, caller, text, old(db.users[caller]).name, old(db.users[caller]).avatar, [], []);
      r == Response(200, PostJson(post)) && db.posts == old(db.posts)[newId := post]
  {
    if caller !in db.users {
      return InternalError;
    }
    var user := db.users[caller];
    var post := Post(newId, caller, text, user.name, user.avatar, [], []);
    db.SavePost(post);
    r := Response(200, PostJson(post));
  }

  /** GET api/post/:post_id */
  method GetPost(db: Db, pid: PostId) returns (r: Response)
    ensures pid !in db.posts ==> r == PostNotFound
    ensures pid in db.posts ==> r == Response(200, PostJson(db.posts[pid]))
  {
    if pid !in db.posts {
      return PostNotFound;
    }
    r := Response(200, PostJson(db.posts[pid]));
  }

  /** DELETE api/post/:post_id: existence is checked before ownership, and only
      the author's own request removes the post. */
  method DeletePost(db: Db, caller: UserId, pid: PostId) returns (r: Response)
    requires db.Valid()
    modifies db
    ensures db.Valid()
    ensures db.users == old(db.users) && db.profiles == old(db.profiles)
    ensures pid !in old(db.posts) ==> r == PostNotFound && db.posts == old(db.posts)
    ensures pid in old(db.posts) && old(db.posts[pid]).user != caller ==>
      r == NotAuthorised && db.posts == old(db.posts)
    ensures pid in old(db.posts) && old(db.posts[pid]).user == caller ==>
      r == Response(200, Msg("Post Removed")) && db.posts == old(db.posts) - {pid}
  {
    var post := db.FindPost(pid);
    if post == null {
      return PostNotFound;
    }
    if post.loaded.user != caller {
      return NotAuthorised;
    }
    db.RemovePost(pid);
    r := Response(200, Msg("Post Removed"));
  }

  /** PUT api/post/like/:post_id: the caller goes to the front of the likers,
      unless already among them. */
  method LikePost(db: Db, caller: UserId, pid: PostId) returns (r: Response)
    requires db.Valid()
    modifies db
    ensures db.Valid()
    ensures db.users == old(db.users) && db.profiles == old(db.profiles)
    ensures pid !in old(db.posts) ==> r == PostNotFound && db.posts == old(db.posts)
    ensures pid in old(db.posts) && caller in Likers(old(db.posts[pid]).likes) ==>
      r == AlreadyLiked && db.posts == old(db.posts)
    ensures pid in old(db.posts) && caller !in Likers(old(db.posts[pid]).likes) ==>
      var p := old(db.posts[pid]);
      var likes := [Like(caller)] + p.likes;
      r == Response(200, LikesJson(likes)) && db.posts == old(db.posts)[pid := p.(likes := likes)]
  {
    var post := db.FindPost(pid);
    if post == null {
      return PostNotFound;
    }
    if |LikesBy(post.likes, caller)| > 0 {
      return AlreadyLiked;
    }
    LikeKeepsLikersDistinct(post.likes, caller);
    post.UnshiftLike(Like(caller));
    db.SavePost(post.Value());
    r := Response(200, LikesJson(post.likes));
  }

  /** PUT api/post/unlike/:post_id: the caller's like is taken out where
      `indexOf` finds it. */
  method UnlikePost(db: Db, caller: UserId, pid: PostId) returns (r: Response)
    requires db.Valid()
    modifies db
    ensures db.Valid()
    ensures db.users == old(db.users) && db.profiles == old(db.profiles)
    ensures pid !in old(db.posts) ==> r == PostNotFound && db.posts == old(db.posts)
    ensures pid in old(db.posts) && caller !in Likers(old(db.posts[pid]).likes) ==>
      r == NotLiked && db.posts == old(db.posts)
    ensures pid in old(db.posts) && caller in Likers(old(db.posts[pid]).likes) ==>
      var p := old(db.posts[pid]);
      var likes := SpliceOne(p.likes, IndexOf(Likers(p.likes), caller));
      r == Response(200, LikesJson(likes)) && db.posts == old(db.posts)[pid := p.(likes := likes)]
  {
    var post := db.FindPost(pid);
    if post == null {
      return PostNotFound;
    }
    if |LikesBy(post.likes, caller)| == 0 {
      return NotLiked;
    }
    var removeIndex := IndexOf(Likers(post.likes), caller);
    UnlikeKeepsLikersDistinct(post.likes, removeIndex);
    post.SpliceLike(removeIndex);
    db.SavePost(post.Value());
    r := Response(200, LikesJson(post.likes));
  }

  /** POST api/post/comment/:post_id: a comment by the caller, with the caller's
      name and avatar, goes to the front of the comments. The store hands the
      comment an id no comment of the post has. */
  method AddComment(db: Db, caller: UserId, pid: PostId, text: string, newId: CommentId)
    returns (r: Response)
    requires db.Valid()
    requires pid in db.posts ==> forall c :: c in db.posts[pid].comments ==> c.id != newId
    modifies db
    ensures db.Valid()
    ensures db.users == old(db.users) && db.profiles == old(db.profiles)
    ensures pid !in old(db.posts) ==> r == PostNotFound && db.posts == old(db.posts)
    ensures pid in old(db.posts) && caller !in old(db.users) ==>
      r == InternalError && db.posts == old(db.posts)
    ensures pid in old(db.posts) && caller in old(db.users) ==>
      var p := old(db.posts[pid]);
      var u := old(db.users[caller]);
      var comments := [Comment(newId, caller, text, u.name, u.avatar)] + p.comments;
      r == Response(200, CommentsJson(comments)) && db.posts == old(db.posts)[pid := p.(comments := comments)]
  {
    var post := db.FindPost(pid);
    if post == null {
      return PostNotFound;
    }
    if caller !in db.users {
      return InternalError;
    }
    var user := db.users[caller];
    post.UnshiftComment(Comment(newId, caller, text, user.name, user.avatar));
    db.SavePost(post.Value());
    r := Response(200, CommentsJson(post.comments));
  }

  /** DELETE api/post/comment/:post_id/:comment_id: the requested comment must
      exist and be the caller's; what is then removed is the caller's FIRST
      comment, found by author rather than by id. */
  method DeleteComment(db: Db, caller: UserId, pid: PostId, cid: CommentId) returns (r: Response)
    requires db.Valid()
    modifies db
    ensures db.Valid()
    ensures db.users == old(db.users) && db.profiles == old(db.profiles)
    ensures pid !in old(db.posts) ==> r == PostNotFound && db.posts == old(db.posts)
    ensures pid in old(db.posts) ==>
      var p := old(db.posts[pid]);
      var found := FindComment(p.comments, cid);
      if found.None? then
        r == CommentMissing && db.posts == old(db.posts)
      else if found.value.user != caller then
        r == NotAuthorised && db.posts == old(db.posts)
      else
        var i := IndexOf(CommentAuthors(p.comments), caller);
        var comments := SpliceOne(p.comments, i);
        0 <= i && r == Response(200, CommentsJson(comments))
        && db.posts == old(db.posts)[pid := p.(comments := comments)]
  {
    var post := db.FindPost(pid);
    if post == null {
      return PostNotFound;
    }
    var comment := FindComment(post.comments, cid);
    if comment.None? {
      return CommentMissing;
    }
    if comment.value.user != caller {
      return NotAuthorised;
    }
    var removeIndex := IndexOf(CommentAuthors(post.comments), caller);
    assert caller in CommentAuthors(post.comments) by {
      var k :| 0 <= k < |post.comments| && post.comments[k] == comment.value;
      assert CommentAuthors(post.comments)[k] == caller;
    }
    post.SpliceComment(removeIndex);
    db.SavePost(post.Value());
    r := Response(200, CommentsJson(post.comments));
  }

  /** A like from someone not yet among the likers keeps the likers distinct. */
  lemma LikeKeepsLikersDistinct(likes: seq<Like>, u: UserId)
    requires Distinct(Likers(likes)) && u !in Likers(likes)
    ensures Distinct(Likers([Like(u)] + likes))
  {
    var after := Likers([Like(u)] + likes);
    assert after == [u] + Likers(likes);
  }

  /** Removing one like never makes a liker appear twice. */
  lemma UnlikeKeepsLikersDistinct(likes: seq<Like>, start: int)
    requires Distinct(Likers(likes))
    ensures Distinct(Likers(SpliceOne(likes, start)))
  {
    var r := SpliceOne(likes, start);
    var k := SpliceStart(|likes|, start);
    forall i, j | 0 <= i < j < |r| ensures Likers(r)[i] != Likers(r)[j] {
      var i' := if i < k then i else i + 1;
      var j' := if j < k then j else j + 1;
      assert i' < j';
      assert Likers(likes)[i'] != Likers(likes)[j'];
    }
  }

  /** A successful unlike takes out exactly the caller's first like: the likes
      before and after it stay, in order, and the list is one shorter. When the
      likers were distinct, the caller no longer likes the post. */
  lemma {:induction false} UnlikeRemovesCallersLike(likes: seq<Like>, u: UserId)
    requires u in Likers(likes)
    ensures var i := IndexOf(Likers(likes), u);
      var after := SpliceOne(likes, i);
      && 0 <= i && likes[i] == Like(u)
      && after == likes[..i] + likes[i + 1..]
      && |after| == |likes| - 1
      && (Distinct(Likers(likes)) ==> u !in Likers(after))
  {
    var i := IndexOf(Likers(likes), u);
    var after := SpliceOne(likes, i);
    assert after == likes[..i] + likes[i + 1..] by {
      assert |after| == |likes[..i] + likes[i + 1..]|;
      forall j | 0 <= j < |after| ensures after[j] == (likes[..i] + likes[i + 1..])[j] { }
    }
    if Distinct(Likers(likes)) {
      forall j | 0 <= j < |after| ensures Likers(after)[j] != u {
        var j' := if j < i then j else j + 1;
        assert Likers(likes)[j'] != Likers(likes)[i];
      }
    }
  }

  /** Unliking right after a like gives the likes back as they were. */
  lemma UnlikeUndoesLike(likes: seq<Like>, u: UserId)
    ensures var liked := [Like(u)] + likes;
      SpliceOne(liked, IndexOf(Likers(liked), u)) == likes
  {
    var liked := [Like(u)] + likes;
    assert Likers(liked)[0] == u;
    RemoveAfterUnshift(likes, Like(u));
  }

  /** Deleting a comment removes the caller's first comment and nothing else; the
      comments before and after it keep their order. */
  lemma {:induction false} DeleteCommentRemovesCallersFirst(comments: seq<Comment>, u: UserId)
    requires u in CommentAuthors(comments)
    ensures var i := IndexOf(CommentAuthors(comments), u);
      var after := SpliceOne(comments, i);
      && 0 <= i && comments[i].user == u
      && (forall j :: 0 <= j < i ==> comments[j].user != u)
      && after == comments[..i] + comments[i + 1..]
  {
    var i := IndexOf(CommentAuthors(comments), u);
    var after := SpliceOne(comments, i);
    assert |after| == |comments[..i] + comments[i + 1..]|;
    forall j | 0 <= j < |after| ensures after[j] == (comments[..i] + comments[i + 1..])[j] { }
    forall j | 0 <= j < i ensures comments[j].user != u {
      assert CommentAuthors(comments)[j] != u;
    }
  }

  /** The requested comment is the one removed exactly when it is the caller's
      first comment: with the caller's two comments c1 then c2, asking to delete
      c2 passes both checks and removes c1, leaving c2 in place. */
  lemma DeleteCommentRemovesAnother(u: UserId)
    ensures var c1 := Comment("c1", u, "first", "n", "a");
      var c2 := Comment("c2", u, "second", "n", "a");
      var comments := [c1, c2];
      && FindComment(comments, "c2") == Some(c2)
      && SpliceOne(comments, IndexOf(CommentAuthors(comments), u)) == [c2]
  {
    var c1 := Comment("c1", u, "first", "n", "a");
    var c2 := Comment("c2", u, "second", "n", "a");
    var comments := [c1, c2];
    assert CommentAuthors(comments)[0] == u;
    assert FindComment(comments[1..], "c2") == Some(c2);
  }
}
