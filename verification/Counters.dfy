/** The denormalised counters of a video, likes_count and comments_count, against the rows they
    count. Each function is one SQL statement or one committed transaction; the runs interleave
    transactions whose pre-reads may be arbitrarily old. */
module Counters {
  import opened Model
  import opened CommentForest

  datatype Like = Like(user: UserId, video: VideoId)

  datatype Video = Video(owner: UserId, likes: nat, comments: nat)

  type Videos = map<VideoId, Video>

  /** `ever` is history: the video of every comment there has been. */
  datatype Tables = Tables(
    videos: Videos, likes: set<Like>, comments: Comments, next: CommentId, ever: map<CommentId, VideoId>)

  const EMPTY := Tables(map[], {}, map[], 0, map[])

  function LikesOf(t: Tables, v: VideoId): set<Like> {
    set l | l in t.likes && l.video == v
  }

  function CommentsOf(c: Comments, v: VideoId): set<CommentId> {
    set i | i in c && c[i].video == v
  }

  function Minus(a: nat, b: nat): nat {
    if a >= b then a - b else 0
  }

  // ----- statements -----

  function IncrementLikesCount(videos: Videos, v: VideoId): Videos {
    if v in videos then videos[v := videos[v].(likes := videos[v].likes + 1)] else videos
  }

  /** WHERE likes_count > 0. */
  function DecrementLikesCount(videos: Videos, v: VideoId): Videos {
    if v in videos && videos[v].likes > 0 then videos[v := videos[v].(likes := videos[v].likes - 1)] else videos
  }

  function IncrementCommentsCount(videos: Videos, v: VideoId): Videos {
    if v in videos then videos[v := videos[v].(comments := videos[v].comments + 1)] else videos
  }

  /** GREATEST(comments_count - n, 0). */
  function DecrementCommentsCountBy(videos: Videos, v: VideoId, n: nat): Videos {
    if v in videos then videos[v := videos[v].(comments := Minus(videos[v].comments, n))] else videos
  }

  predicate Liked(likes: set<Like>, u: UserId, v: VideoId) {
    Like(u, v) in likes
  }

  predicate Commented(c: Comments, u: UserId, v: VideoId) {
    exists i :: i in c && c[i].author == u && c[i].video == v
  }

  /** One less on every video the user likes. */
  function DecrementLikesForUser(videos: Videos, likes: set<Like>, u: UserId): Videos {
    map v | v in videos :: if Liked(likes, u, v) then videos[v].(likes := Minus(videos[v].likes, 1)) else videos[v]
  }

  /** One less on every video the user commented on, however often. */
  function DecrementCommentsForUser(videos: Videos, c: Comments, u: UserId): Videos {
    map v | v in videos :: if Commented(c, u, v) then videos[v].(comments := Minus(videos[v].comments, 1)) else videos[v]
  }

  /** Removing videos removes their like and comment rows. */
  function RemoveVideos(t: Tables, gone: set<VideoId>): Tables {
    t.(videos := t.videos - gone,
       likes := (set l | l in t.likes && l.video !in gone),
       comments := map i | i in t.comments && t.comments[i].video !in gone :: t.comments[i])
  }

  function OwnedBy(videos: Videos, u: UserId): set<VideoId> {
    set v | v in videos && videos[v].owner == u
  }

  function By(c: Comments, u: UserId): set<CommentId> {
    set i | i in c && c[i].author == u
  }

  // ----- transactions -----

  /** None: a constraint refused a statement and the transaction rolled back. */
  function LikeVideo(t: Tables, u: UserId, v: VideoId): Option<Tables> {
    if v !in t.videos then None
    else if Liked(t.likes, u, v) then Some(t)
    else Some(t.(likes := t.likes + {Like(u, v)}, videos := IncrementLikesCount(t.videos, v)))
  }

  function UnlikeVideo(t: Tables, u: UserId, v: VideoId): Tables {
    if !Liked(t.likes, u, v) then t
    else t.(likes := t.likes - {Like(u, v)}, videos := DecrementLikesCount(t.videos, v))
  }

  /** InsertComment and the increment; a reply needs its parent in the same video. */
  function AddComment(t: Tables, u: UserId, v: VideoId, parent: Option<CommentId>): Option<Tables> {
    if v !in t.videos || (parent.Some? && (parent.value !in t.comments || t.comments[parent.value].video != v)) then None
    else Some(t.(
      comments := t.comments[t.next := Comment(v, u, parent)],
      videos := IncrementCommentsCount(t.videos, v),
      next := t.next + 1,
      ever := t.ever[t.next := v]))
  }

  /** `v` is the video of the row the handler read before the transaction. */
  function DeleteComment(t: Tables, i: CommentId, v: VideoId): Tables
    requires Forest(t.comments, t.next)
  {
    var n := CountSubtree(t.comments, t.next, i);
    t.(comments := t.comments - Doomed(t.comments, {i}),
       videos := if n > 0 then DecrementCommentsCountBy(t.videos, v, n) else t.videos)
  }

  /** The delete cascade of an account, in its order. */
  function DeleteAccount(t: Tables, u: UserId): Tables {
    var t1 := t.(videos := DecrementLikesForUser(t.videos, t.likes, u));
    var t2 := t1.(videos := DecrementCommentsForUser(t1.videos, t1.comments, u));
    var t3 := RemoveVideos(t2, OwnedBy(t2.videos, u));
    var t4 := t3.(likes := set l | l in t3.likes && l.user != u);
    t4.(comments := t4.comments - Doomed(t4.comments, By(t4.comments, u)))
  }

  // ----- the invariant -----

  predicate RowsFit(t: Tables) {
    && Forest(t.comments, t.next)
    && (forall l :: l in t.likes ==> l.video in t.videos)
    && (forall i :: i in t.comments ==> t.comments[i].video in t.videos && i in t.ever && t.ever[i] == t.comments[i].video)
    && (forall i :: i in t.ever ==> i < t.next)
  }

  predicate LikesExact(t: Tables, v: VideoId) {
    v in t.videos ==> t.videos[v].likes == |LikesOf(t, v)|
  }

  predicate CommentsCovered(t: Tables, v: VideoId) {
    v in t.videos ==> t.videos[v].comments >= |CommentsOf(t.comments, v)|
  }

  predicate Consistent(t: Tables) {
    RowsFit(t) && forall v :: v in t.videos ==> LikesExact(t, v) && CommentsCovered(t, v)
  }

  /** How far comments_count is above the number of rows. */
  function Gap(t: Tables, v: VideoId): nat
    requires CommentsCovered(t, v)
  {
    if v in t.videos then t.videos[v].comments - |CommentsOf(t.comments, v)| else 0
  }

  // ----- likes -----

  lemma OneMore<T>(s: set<T>, x: T)
    requires x !in s
    ensures |s + {x}| == |s| + 1
  {
  }

  lemma LikeAt(t: Tables, t': Tables, u: UserId, v: VideoId, w: VideoId)
    requires LikesExact(t, w) && CommentsCovered(t, w) && LikeVideo(t, u, v) == Some(t') && w in t.videos
    ensures w in t'.videos && LikesExact(t', w) && CommentsCovered(t', w) && Gap(t', w) == Gap(t, w)
  {
    if Liked(t.likes, u, v) {
      assert t' == t;
    } else {
      LikeAdded(t, t', u, v, w);
      assert t'.comments == t.comments;
    }
  }

  lemma LikeAdded(t: Tables, t': Tables, u: UserId, v: VideoId, w: VideoId)
    requires !Liked(t.likes, u, v) && t'.likes == t.likes + {Like(u, v)}
    ensures |LikesOf(t', w)| == |LikesOf(t, w)| + if w == v then 1 else 0
  {
    if w == v {
      assert LikesOf(t', v) == LikesOf(t, v) + {Like(u, v)};
      OneMore(LikesOf(t, v), Like(u, v));
    } else {
      assert LikesOf(t', w) == LikesOf(t, w);
    }
  }

  lemma LikePreserves(t: Tables, t': Tables, u: UserId, v: VideoId)
    requires Consistent(t) && LikeVideo(t, u, v) == Some(t')
    ensures Consistent(t') && (forall w :: w in t'.videos ==> w in t.videos && Gap(t', w) == Gap(t, w))
  {
    forall w | w in t'.videos
      ensures w in t.videos && LikesExact(t', w) && CommentsCovered(t, w)
      ensures CommentsCovered(t', w) && Gap(t', w) == Gap(t, w)
    {
      assert w in t.videos && LikesExact(t, w) && CommentsCovered(t, w);
      LikeAt(t, t', u, v, w);
    }
  }

  /** The guard `likes_count > 0` never blocks a decrement: the removed row was counted. */
  lemma UnlikePreserves(t: Tables, u: UserId, v: VideoId)
    requires Consistent(t)
    ensures Consistent(UnlikeVideo(t, u, v))
    ensures forall w :: w in UnlikeVideo(t, u, v).videos ==> w in t.videos && Gap(UnlikeVideo(t, u, v), w) == Gap(t, w)
    ensures Liked(t.likes, u, v) ==> v in t.videos && t.videos[v].likes > 0
  {
    var t' := UnlikeVideo(t, u, v);
    forall w | w in t'.videos ensures w in t.videos && LikesExact(t', w) && CommentsCovered(t', w) && Gap(t', w) == Gap(t, w) {
      assert LikesExact(t, w) && CommentsCovered(t, w);
      if Liked(t.likes, u, v) && w == v {
        assert LikesOf(t', v) == LikesOf(t, v) - {Like(u, v)};
        assert Like(u, v) in LikesOf(t, v);
      } else {
        assert LikesOf(t', w) == LikesOf(t, w);
      }
    }
    if Liked(t.likes, u, v) {
      assert LikesExact(t, v) && Like(u, v) in LikesOf(t, v);
    }
  }

  // ----- comments -----

  lemma AddCommentAt(t: Tables, t': Tables, u: UserId, v: VideoId, parent: Option<CommentId>, w: VideoId)
    requires LikesExact(t, w) && CommentsCovered(t, w) && AddComment(t, u, v, parent) == Some(t') && w in t.videos
    requires t.next !in t.comments
    ensures w in t'.videos && LikesExact(t', w) && CommentsCovered(t', w) && Gap(t', w) == Gap(t, w)
  {
    assert LikesOf(t', w) == LikesOf(t, w);
    RowAdded(t.comments, t.next, Comment(v, u, parent), w);
  }

  lemma RowAdded(c: Comments, next: CommentId, row: Comment, w: VideoId)
    requires next !in c
    ensures |CommentsOf(c[next := row], w)| == |CommentsOf(c, w)| + if w == row.video then 1 else 0
  {
    if w == row.video {
      assert CommentsOf(c[next := row], w) == CommentsOf(c, w) + {next};
      OneMore(CommentsOf(c, w), next);
    } else {
      assert CommentsOf(c[next := row], w) == CommentsOf(c, w);
    }
  }

  lemma AddCommentFits(t: Tables, t': Tables, u: UserId, v: VideoId, parent: Option<CommentId>)
    requires RowsFit(t) && AddComment(t, u, v, parent) == Some(t')
    ensures RowsFit(t')
  {
  }

  lemma AddCommentPreserves(t: Tables, t': Tables, u: UserId, v: VideoId, parent: Option<CommentId>)
    requires Consistent(t) && AddComment(t, u, v, parent) == Some(t')
    ensures Consistent(t') && forall w :: w in t.videos ==> w in t'.videos && Gap(t', w) == Gap(t, w)
  {
    AddCommentFits(t, t', u, v, parent);
    forall w | w in t'.videos
      ensures w in t.videos && LikesExact(t', w) && CommentsCovered(t, w)
      ensures CommentsCovered(t', w) && Gap(t', w) == Gap(t, w)
    {
      assert w in t.videos && LikesExact(t, w) && CommentsCovered(t, w);
      AddCommentAt(t, t', u, v, parent, w);
    }
  }

  /** Also for a comment deleted before: then the count is 0 and nothing changes. GREATEST never
      clamps, and the counter falls by exactly the number of rows removed. */
  lemma DeleteCommentPreserves(t: Tables, i: CommentId, v: VideoId)
    requires Consistent(t) && i in t.ever && t.ever[i] == v
    ensures
      var t' := DeleteComment(t, i, v);
      && Consistent(t')
      && (i !in t.comments ==> t' == t)
      && (forall w :: w in t.videos ==> w in t'.videos && Gap(t', w) == Gap(t, w))
      && (v in t.videos ==> CountSubtree(t.comments, t.next, i) <= t.videos[v].comments)
  {
    var t', doomed := DeleteComment(t, i, v), Doomed(t.comments, {i});
    CountIsCascadeSize(t.comments, t.next, i);
    CascadeKeepsForest(t.comments, t.next, {i});
    forall j | j in doomed ensures i in t.comments && t.comments[j].video == v {
      OneVideo(t.comments, t.next, j, i);
    }
    if i !in t.comments {
      assert doomed == {} && t.comments - {} == t.comments;
    }
    forall w | w in t'.videos
      ensures LikesExact(t', w) && CommentsCovered(t', w) && w in t.videos && Gap(t', w) == Gap(t, w)
    {
      assert LikesExact(t, w) && CommentsCovered(t, w);
      assert LikesOf(t', w) == LikesOf(t, w);
      RowsRemoved(t.comments, doomed, v, w);
    }
    if v in t.videos {
      assert CommentsCovered(t, v);
      RowsRemoved(t.comments, doomed, v, v);
    }
  }

  /** What the deletion of a comment leaves: its cascade's rows are gone and the video's counter is lower by as many. */
  lemma DeleteCommentLeaves(t: Tables, i: CommentId, v: VideoId)
    requires Consistent(t) && i in t.ever && t.ever[i] == v
    ensures
      var t', doomed := DeleteComment(t, i, v), Doomed(t.comments, {i});
      && t'.comments == t.comments - doomed && t'.likes == t.likes && t'.next == t.next && t'.ever == t.ever
      && (i !in t.comments ==> t'.videos == t.videos)
      && (i in t.comments ==>
           && v in t.videos && 0 < |doomed| <= t.videos[v].comments
           && t'.videos == t.videos[v := t.videos[v].(comments := t.videos[v].comments - |doomed|)])
  {
    DeleteCommentPreserves(t, i, v);
    CountIsCascadeSize(t.comments, t.next, i);
    if i in t.comments {
      assert Below(t.comments, i, {i}) && i in Doomed(t.comments, {i});
    }
  }

  /** Removing rows that are all of video `v` lowers the number of `v`'s rows by as many. */
  lemma RowsRemoved(c: Comments, doomed: set<CommentId>, v: VideoId, w: VideoId)
    requires forall i :: i in doomed ==> i in c && c[i].video == v
    ensures |CommentsOf(c - doomed, w)| == if w == v then |CommentsOf(c, v)| - |doomed| else |CommentsOf(c, w)|
    ensures |doomed| <= |CommentsOf(c, v)|
  {
    assert doomed <= CommentsOf(c, v);
    assert CommentsOf(c - doomed, v) == CommentsOf(c, v) - doomed;
    if w != v {
      assert CommentsOf(c - doomed, w) == CommentsOf(c, w);
    }
    assert |CommentsOf(c, v) - doomed| == |CommentsOf(c, v)| - |CommentsOf(c, v) * doomed|;
    assert CommentsOf(c, v) * doomed == doomed;
  }

  // ----- deleting videos and accounts -----

  lemma RemoveVideosPreserves(t: Tables, gone: set<VideoId>)
    requires Consistent(t)
    ensures
      var t' := RemoveVideos(t, gone);
      Consistent(t') && forall v :: v in t'.videos ==> v in t.videos && Gap(t', v) == Gap(t, v)
  {
    var t' := RemoveVideos(t, gone);
    forall v | v in t'.videos
      ensures v in t.videos && LikesExact(t', v) && CommentsCovered(t', v) && Gap(t', v) == Gap(t, v)
    {
      assert LikesExact(t, v) && CommentsCovered(t, v);
      assert LikesOf(t', v) == LikesOf(t, v);
      assert CommentsOf(t'.comments, v) == CommentsOf(t.comments, v);
    }
  }

  /** The rows of `v` that go with the comments of `u`: hers and all replies to them. */
  function Removed(c: Comments, u: UserId, v: VideoId): set<CommentId> {
    set i | i in Doomed(c, By(c, u)) && c[i].video == v
  }

  /** Only a video with a comment of `u` loses rows, and then at least one. */
  lemma {:induction false} RemovedIffCommented(c: Comments, next: CommentId, u: UserId, v: VideoId)
    requires Forest(c, next)
    ensures Commented(c, u, v) <==> Removed(c, u, v) != {}
  {
    if Commented(c, u, v) {
      var i :| i in c && c[i].author == u && c[i].video == v;
      assert Below(c, i, By(c, u));
      assert i in Removed(c, u, v);
    }
    if i :| i in Removed(c, u, v) {
      RootInVideo(c, next, i, By(c, u));
    }
  }

  lemma {:induction false} RootInVideo(c: Comments, next: CommentId, i: CommentId, roots: set<CommentId>)
    requires Forest(c, next) && Below(c, i, roots)
    ensures exists r :: r in roots && r in c && c[r].video == c[i].video
    decreases i
  {
    if i !in roots {
      RootInVideo(c, next, c[i].parent.value, roots);
    }
  }

  /** Cascading within one video looks only at that video's rows. */
  lemma {:induction false} BelowWithin(c: Comments, c': Comments, next: CommentId, u: UserId, i: CommentId)
    requires Forest(c, next) && i in c'
    requires forall j :: j in c' ==> j in c && c'[j] == c[j]
    requires forall j :: j in c && c[j].video == c[i].video && i in c ==> j in c'
    ensures Below(c', i, By(c', u)) <==> Below(c, i, By(c, u))
    decreases i
  {
    if c[i].parent.Some? {
      BelowWithin(c, c', next, u, c[i].parent.value);
    }
  }

  /** The rows after the cascade. */
  lemma AccountRows(t: Tables, u: UserId, v: VideoId)
    requires RowsFit(t) && v in t.videos && t.videos[v].owner != u
    ensures
      var t' := DeleteAccount(t, u);
      && v in t'.videos && t'.videos[v].owner == t.videos[v].owner
      && LikesOf(t', v) == LikesOf(t, v) - {Like(u, v)}
      && CommentsOf(t'.comments, v) == CommentsOf(t.comments, v) - Removed(t.comments, u, v)
  {
    var t' := DeleteAccount(t, u);
    assert LikesOf(t', v) == LikesOf(t, v) - {Like(u, v)};
    var gone := OwnedBy(t.videos, u);
    var left: Comments := map i | i in t.comments && t.comments[i].video !in gone :: t.comments[i];
    assert OwnedBy(DecrementCommentsForUser(DecrementLikesForUser(t.videos, t.likes, u), t.comments, u), u) == gone;
    assert t'.comments == left - Doomed(left, By(left, u));
    forall i | i in t.comments && t.comments[i].video == v
      ensures i in left && (i in t'.comments <==> i !in Removed(t.comments, u, v))
    {
      BelowWithin(t.comments, left, t.next, u, i);
    }
    assert CommentsOf(t'.comments, v) == CommentsOf(t.comments, v) - Removed(t.comments, u, v);
  }

  /** What the account's deletion does to a surviving video: likes_count stays exact; the gap of
      comments_count grows by the rows removed beyond the one it is lowered for; neither GREATEST clamps. */
  lemma AccountDeletionWidensGap(t: Tables, u: UserId, v: VideoId)
    requires Consistent(t) && v in t.videos && t.videos[v].owner != u
    ensures
      var t' := DeleteAccount(t, u);
      && LikesExact(t', v) && CommentsCovered(t, v) && CommentsCovered(t', v)
      && Gap(t', v) == Gap(t, v) + (if Commented(t.comments, u, v) then |Removed(t.comments, u, v)| - 1 else 0)
    ensures Liked(t.likes, u, v) ==> t.videos[v].likes >= 1
    ensures Commented(t.comments, u, v) ==> t.videos[v].comments >= 1
  {
    assert LikesExact(t, v) && CommentsCovered(t, v);
    AccountRows(t, u, v);
    RemovedIffCommented(t.comments, t.next, u, v);
    var rows, removed := CommentsOf(t.comments, v), Removed(t.comments, u, v);
    assert removed <= rows && |rows - removed| == |rows| - |rows * removed| && rows * removed == removed;
    assert Like(u, v) in LikesOf(t, v) <==> Liked(t.likes, u, v);
    if Liked(t.likes, u, v) {
      assert |LikesOf(t, v) - {Like(u, v)}| == |LikesOf(t, v)| - 1;
    } else {
      assert LikesOf(t, v) - {Like(u, v)} == LikesOf(t, v);
    }
  }

  lemma AccountFits(t: Tables, u: UserId)
    requires RowsFit(t)
    ensures RowsFit(DeleteAccount(t, u))
    ensures forall v :: v in DeleteAccount(t, u).videos <==> v in t.videos && t.videos[v].owner != u
  {
    var gone := OwnedBy(t.videos, u);
    var left: Comments := map i | i in t.comments && t.comments[i].video !in gone :: t.comments[i];
    assert OwnedBy(DecrementCommentsForUser(DecrementLikesForUser(t.videos, t.likes, u), t.comments, u), u) == gone;
    CascadeKeepsForest(left, t.next, By(left, u));
  }

  lemma AccountPreserves(t: Tables, u: UserId)
    requires Consistent(t)
    ensures Consistent(DeleteAccount(t, u))
  {
    var t' := DeleteAccount(t, u);
    AccountFits(t, u);
    forall v | v in t'.videos ensures LikesExact(t', v) && CommentsCovered(t', v) {
      AccountDeletionWidensGap(t, u, v);
    }
  }

  /** Why the cascade decrements before it deletes: the other way round it finds no like to
      decrement for, and the counter of every surviving video the user liked stays one too high. */
  lemma DeleteFirstWouldDrift(t: Tables, u: UserId, v: VideoId)
    requires Consistent(t) && v in t.videos && Liked(t.likes, u, v)
    ensures
      var likes := set l | l in t.likes && l.user != u;
      var t' := t.(likes := likes, videos := DecrementLikesForUser(t.videos, likes, u));
      t'.videos[v].likes == |LikesOf(t', v)| + 1
  {
    var likes := set l | l in t.likes && l.user != u;
    var t' := t.(likes := likes, videos := DecrementLikesForUser(t.videos, likes, u));
    assert LikesExact(t, v);
    assert LikesOf(t', v) == LikesOf(t, v) - {Like(u, v)};
    assert Like(u, v) in LikesOf(t, v);
  }

  lemma VideoLeft(t: Tables, u: UserId, v: VideoId)
    requires Consistent(t) && v in DeleteAccount(t, u).videos
    ensures
      var video := DeleteAccount(t, u).videos[v];
      && v in t.videos && video.owner == t.videos[v].owner != u
      && video.likes == t.videos[v].likes - (if Like(u, v) in t.likes then 1 else 0)
      && video.comments == t.videos[v].comments - (if Commented(t.comments, u, v) then 1 else 0)
  {
    AccountFits(t, u);
    AccountDeletionWidensGap(t, u, v);
  }

  lemma CommentLeft(t: Tables, u: UserId, i: CommentId)
    requires Consistent(t)
    ensures
      i in DeleteAccount(t, u).comments
      <==> i in t.comments && t.videos[t.comments[i].video].owner != u && i !in Doomed(t.comments, By(t.comments, u))
    ensures i in DeleteAccount(t, u).comments ==> DeleteAccount(t, u).comments[i] == t.comments[i]
  {
    var gone := OwnedBy(t.videos, u);
    var left: Comments := map j | j in t.comments && t.comments[j].video !in gone :: t.comments[j];
    assert OwnedBy(DecrementCommentsForUser(DecrementLikesForUser(t.videos, t.likes, u), t.comments, u), u) == gone;
    assert DeleteAccount(t, u).comments == left - Doomed(left, By(left, u));
    if i in left {
      BelowWithin(t.comments, left, t.next, u, i);
    }
  }

  lemma LikesLeft(t: Tables, u: UserId)
    requires RowsFit(t)
    ensures forall l :: l in DeleteAccount(t, u).likes <==> l in t.likes && l.user != u && t.videos[l.video].owner != u
  {
    var gone := OwnedBy(t.videos, u);
    assert OwnedBy(DecrementCommentsForUser(DecrementLikesForUser(t.videos, t.likes, u), t.comments, u), u) == gone;
  }

  /** What an account's deletion leaves, row by row: the others' videos with one like less where the user liked and
      one comment less where she commented; the others' likes on them; and the comments on them that are neither
      hers nor under one of hers. */
  lemma AccountDeletionLeaves(t: Tables, u: UserId)
    requires Consistent(t)
    ensures
      var t' := DeleteAccount(t, u);
      && (forall v :: v in t'.videos <==> v in t.videos && t.videos[v].owner != u)
      && (forall v :: v in t'.videos ==>
           && t'.videos[v].owner == t.videos[v].owner
           && t'.videos[v].likes == t.videos[v].likes - (if Like(u, v) in t.likes then 1 else 0)
           && t'.videos[v].comments == t.videos[v].comments - (if Commented(t.comments, u, v) then 1 else 0))
      && (forall l :: l in t'.likes <==> l in t.likes && l.user != u && t.videos[l.video].owner != u)
      && (forall i :: i in t'.comments <==>
           i in t.comments && t.videos[t.comments[i].video].owner != u && i !in Doomed(t.comments, By(t.comments, u)))
      && (forall i :: i in t'.comments ==> t'.comments[i] == t.comments[i])
  {
    AccountFits(t, u);
    LikesLeft(t, u);
    forall v | v in DeleteAccount(t, u).videos
      ensures
        var video := DeleteAccount(t, u).videos[v];
        && v in t.videos && video.owner == t.videos[v].owner
        && video.likes == t.videos[v].likes - (if Like(u, v) in t.likes then 1 else 0)
        && video.comments == t.videos[v].comments - (if Commented(t.comments, u, v) then 1 else 0)
    {
      VideoLeft(t, u, v);
    }
    forall i
      ensures i in DeleteAccount(t, u).comments
        <==> i in t.comments && t.videos[t.comments[i].video].owner != u && i !in Doomed(t.comments, By(t.comments, u))
      ensures i in DeleteAccount(t, u).comments ==> DeleteAccount(t, u).comments[i] == t.comments[i]
    {
      CommentLeft(t, u, i);
    }
  }

  // ----- runs -----

  datatype Step =
    | NewVideo(v: VideoId, owner: UserId)
    | DoLike(u: UserId, v: VideoId)
    | DoUnlike(u: UserId, v: VideoId)
    | DoComment(u: UserId, v: VideoId, parent: Option<CommentId>)
    | DoDelete(i: CommentId, v: VideoId)       // `v` from a row read at any earlier time
    | DoDeleteAccount(u: UserId)
    | DoPurge(v: VideoId)                      // the worker's hard delete

  /** Transactions that a constraint refuses leave everything as it was. */
  function Next(t: Tables, step: Step): Option<Tables>
    requires Consistent(t)
  {
    match step
    case NewVideo(v, owner) => if v in t.videos then None else Some(t.(videos := t.videos[v := Video(owner, 0, 0)]))
    case DoLike(u, v) => LikeVideo(t, u, v)
    case DoUnlike(u, v) => Some(UnlikeVideo(t, u, v))
    case DoComment(u, v, parent) => AddComment(t, u, v, parent)
    case DoDelete(i, v) => if i in t.ever && t.ever[i] == v then Some(DeleteComment(t, i, v)) else None
    case DoDeleteAccount(u) => Some(DeleteAccount(t, u))
    case DoPurge(v) => Some(RemoveVideos(t, {v}))
  }

  lemma NewVideoPreserves(t: Tables, v: VideoId, owner: UserId)
    requires Consistent(t) && v !in t.videos
    ensures
      var t' := t.(videos := t.videos[v := Video(owner, 0, 0)]);
      Consistent(t') && (forall w :: w in t.videos ==> Gap(t', w) == Gap(t, w)) && Gap(t', v) == 0
  {
    var t' := t.(videos := t.videos[v := Video(owner, 0, 0)]);
    forall w | w in t'.videos ensures LikesExact(t', w) && CommentsCovered(t', w) {
      assert LikesOf(t', w) == LikesOf(t, w);
      if w == v {
        assert LikesOf(t', v) == {} && CommentsOf(t'.comments, v) == {};
      } else {
        assert LikesExact(t, w) && CommentsCovered(t, w);
      }
    }
  }

  lemma Preserves(t: Tables, t': Tables, step: Step)
    requires Consistent(t) && Next(t, step) == Some(t')
    ensures Consistent(t')
  {
    match step
    case NewVideo(v, owner) => NewVideoPreserves(t, v, owner);
    case DoLike(u, v) => LikePreserves(t, t', u, v);
    case DoUnlike(u, v) => UnlikePreserves(t, u, v);
    case DoComment(u, v, parent) => AddCommentPreserves(t, t', u, v, parent);
    case DoDelete(i, v) => DeleteCommentPreserves(t, i, v);
    case DoDeleteAccount(u) => AccountPreserves(t, u);
    case DoPurge(v) => RemoveVideosPreserves(t, {v});
  }

  lemma EmptyIsConsistent()
    ensures Consistent(EMPTY)
  {
  }

  /** The tables after the transactions of a trace; refused ones change nothing. */
  function Run(trace: seq<Step>): (t: Tables)
    ensures Consistent(t)
    decreases |trace|
  {
    if trace == [] then
      EmptyIsConsistent();
      EMPTY
    else
      var before := Run(trace[..|trace| - 1]);
      match Next(before, trace[|trace| - 1])
      case None => before
      case Some(t) =>
        Preserves(before, t, trace[|trace| - 1]);
        t
  }

  predicate Deletes(step: Step) {
    step.DoDeleteAccount?
  }

  /** likes_count is the number of like rows after every run; comments_count is never below the
      number of comment rows. */
  lemma CountersAfterAnyRun(trace: seq<Step>, v: VideoId)
    requires v in Run(trace).videos
    ensures Run(trace).videos[v].likes == |LikesOf(Run(trace), v)|
    ensures Run(trace).videos[v].comments >= |CommentsOf(Run(trace).comments, v)|
  {
    assert LikesExact(Run(trace), v) && CommentsCovered(Run(trace), v);
  }

  /** By how much a transaction widens the gap of `v`: an account deletion by the rows removed
      there beyond one, anything else not at all. */
  function Excess(t: Tables, step: Step, v: VideoId): int {
    if step.DoDeleteAccount? && Commented(t.comments, step.u, v) then |Removed(t.comments, step.u, v)| - 1 else 0
  }

  /** How far the gap of `v` has been widened since the video was made. */
  function Widened(trace: seq<Step>, v: VideoId): int
    decreases |trace|
  {
    if trace == [] then 0
    else
      var n := |trace| - 1;
      if v in Run(trace).videos && v in Run(trace[..n]).videos
      then Widened(trace[..n], v) + Excess(Run(trace[..n]), trace[n], v)
      else 0
  }

  lemma GapStep(t: Tables, t': Tables, step: Step, v: VideoId)
    requires Consistent(t) && Next(t, step) == Some(t') && v in t.videos && v in t'.videos
    ensures CommentsCovered(t, v) && CommentsCovered(t', v) && Gap(t', v) == Gap(t, v) + Excess(t, step, v)
  {
    assert CommentsCovered(t, v);
    match step
    case NewVideo(w, owner) => NewVideoPreserves(t, w, owner);
    case DoLike(u, w) => LikePreserves(t, t', u, w);
    case DoUnlike(u, w) => UnlikePreserves(t, u, w);
    case DoComment(u, w, parent) => AddCommentPreserves(t, t', u, w, parent);
    case DoDelete(i, w) => DeleteCommentPreserves(t, i, w);
    case DoDeleteAccount(u) =>
      AccountFits(t, u);
      AccountDeletionWidensGap(t, u, v);
    case DoPurge(w) => RemoveVideosPreserves(t, {w});
  }

  lemma NewStep(t: Tables, t': Tables, step: Step, v: VideoId)
    requires Consistent(t) && Next(t, step) == Some(t') && v !in t.videos && v in t'.videos
    ensures t'.videos[v].comments == |CommentsOf(t'.comments, v)|
  {
    match step
    case NewVideo(w, owner) => NewVideoPreserves(t, w, owner);
    case DoLike(u, w) => LikePreserves(t, t', u, w);
    case DoUnlike(u, w) => UnlikePreserves(t, u, w);
    case DoComment(u, w, parent) => AddCommentPreserves(t, t', u, w, parent);
    case DoDelete(i, w) => DeleteCommentPreserves(t, i, w);
    case DoDeleteAccount(u) => AccountFits(t, u);
    case DoPurge(w) => RemoveVideosPreserves(t, {w});
  }

  /** The exact value of comments_count after every run: the rows, plus what account deletions left over. */
  lemma {:induction false} CommentsCountExactly(trace: seq<Step>, v: VideoId)
    requires v in Run(trace).videos
    ensures Run(trace).videos[v].comments == |CommentsOf(Run(trace).comments, v)| + Widened(trace, v)
    decreases |trace|
  {
    if trace != [] {
      var n := |trace| - 1;
      var before, after := Run(trace[..n]), Run(trace);
      if v in before.videos {
        CommentsCountExactly(trace[..n], v);
      }
      OneStep(before, after, trace[n], v);
    }
  }

  lemma OneStep(t: Tables, t': Tables, step: Step, v: VideoId)
    requires Consistent(t) && v in t'.videos
    requires t' == if Next(t, step).None? then t else Next(t, step).value
    ensures t'.videos[v].comments - |CommentsOf(t'.comments, v)|
      == if v in t.videos then t.videos[v].comments - |CommentsOf(t.comments, v)| + Excess(t, step, v) else 0
  {
    if Next(t, step).Some? {
      if v in t.videos {
        GapStep(t, t', step, v);
      } else {
        NewStep(t, t', step, v);
      }
    }
  }

  /** Without account deletions comments_count is the number of rows, however often and from
      however old a read the same comment is deleted. */
  lemma {:induction false} CommentsCountIsRows(trace: seq<Step>, v: VideoId)
    requires v in Run(trace).videos && forall i :: 0 <= i < |trace| ==> !Deletes(trace[i])
    ensures Run(trace).videos[v].comments == |CommentsOf(Run(trace).comments, v)|
  {
    NothingWidened(trace, v);
    CommentsCountExactly(trace, v);
  }

  lemma {:induction false} NothingWidened(trace: seq<Step>, v: VideoId)
    requires forall i :: 0 <= i < |trace| ==> !Deletes(trace[i])
    ensures Widened(trace, v) == 0
    decreases |trace|
  {
    if trace != [] {
      NothingWidened(trace[..|trace| - 1], v);
      assert !Deletes(trace[|trace| - 1]);
    }
  }
}
