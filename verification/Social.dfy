/** The transaction bodies of the social handlers and of account deletion, statement by
    statement, on tables they change in place. Any statement and the commit may fail; then the
    runner rolls everything back. */
module Social {
  import opened Model
  import opened CommentForest
  import opened Counters

  datatype Notification = Notification(recipient: UserId, actor: UserId, kind: string)

  datatype Inserted = New | Existing | Refused

  datatype Snapshot = Snapshot(tables: Tables, notifications: seq<Notification>)

  /** The recipients of a reply's notifications: the video's owner and the parent's author, each
      once, and never the actor. */
  function Recipients(actor: UserId, owner: UserId, parentAuthor: UserId): set<UserId> {
    {owner, parentAuthor} - {actor}
  }

  /** The notification is of the actor's comment and goes to the video's owner or the parent's author, unless that
      is the actor. */
  predicate Due(n: Notification, actor: UserId, owner: UserId, parentAuthor: UserId) {
    n.actor == actor && n.kind == "comment" && n.recipient != actor && (n.recipient == owner || n.recipient == parentAuthor)
  }

  /** Exactly one comment notification per recipient. */
  predicate NotifiesEach(news: seq<Notification>, actor: UserId, recipients: set<UserId>) {
    multiset(news) == NoticesFor(recipients, actor)
  }

  function NoticesFor(recipients: set<UserId>, actor: UserId): multiset<Notification> {
    multiset(set u | u in recipients :: Notification(u, actor, "comment"))
  }

  /** A like notifies the owner, unless it was there already or the owner likes her own video. */
  function LikeNotices(likes: set<Like>, u: UserId, v: VideoId, owner: UserId): seq<Notification> {
    if Liked(likes, u, v) || u == owner then [] else [Notification(owner, u, "like")]
  }

  /** The composite foreign key: a reply's parent is a comment of the same video. */
  predicate ParentFits(c: Comments, v: VideoId, parent: Option<CommentId>) {
    parent.Some? ==> parent.value in c && c[parent.value].video == v
  }

  class Database {
    var videos: Videos
    var likes: set<Like>
    var comments: Comments
    var next: CommentId
    var ever: map<CommentId, VideoId>
    var notifications: seq<Notification>
    var faults: seq<bool>      // whether each coming call fails

    function Abs(): Tables
      reads this
    {
      Tables(videos, likes, comments, next, ever)
    }

    ghost predicate Valid()
      reads this
    {
      Consistent(Abs())
    }

    constructor (faults: seq<bool>)
      ensures Valid() && Abs() == EMPTY && notifications == []
    {
      videos, likes, comments, next, ever := map[], {}, map[], 0, map[];
      notifications, this.faults := [], faults;
    }

    /** Whether the coming call fails. */
    method Fails() returns (fails: bool)
      modifies `faults
      ensures old(faults) == [] ==> !fails && faults == []
    {
      fails := faults != [] && faults[0];
      faults := if faults == [] then [] else faults[1..];
    }

    // ----- the transaction runner -----

    method Begin() returns (saved: Snapshot)
      ensures saved == Snapshot(Abs(), notifications)
    {
      saved := Snapshot(Tables(videos, likes, comments, next, ever), notifications);
    }

    /** Commits, unless the body or the commit failed: then everything is as at the beginning. */
    method End(saved: Snapshot, failed: bool) returns (ok: bool)
      modifies this
      ensures ok ==> !failed && Abs() == old(Abs()) && notifications == old(notifications)
      ensures old(faults) == [] ==> (ok <==> !failed)
      ensures !ok ==> Snapshot(Abs(), notifications) == saved
    {
      var commitFails := Fails();
      ok := !failed && !commitFails;
      if !ok {
        var t := saved.tables;
        videos, likes, comments, next, ever := t.videos, t.likes, t.comments, t.next, t.ever;
        notifications := saved.notifications;
      }
    }

    // ----- statements -----

    /** INSERT ... ON CONFLICT DO NOTHING RETURNING. */
    method InsertLike(u: UserId, v: VideoId) returns (r: Inserted)
      modifies `likes, `faults
      ensures r.New? ==> v in videos && !Liked(old(likes), u, v) && likes == old(likes) + {Like(u, v)}
      ensures r.Existing? ==> v in videos && Liked(likes, u, v) && likes == old(likes)
      ensures r.Refused? ==> likes == old(likes)
      ensures old(faults) == [] ==> faults == [] && (r.Refused? <==> v !in videos)
    {
      var fails := Fails();
      if fails || v !in videos {
        return Refused;
      }
      if Like(u, v) in likes {
        return Existing;
      }
      likes := likes + {Like(u, v)};
      r := New;
    }

    /** INSERT INTO comments; the foreign keys need the video, and the parent in that video. */
    method InsertComment(u: UserId, v: VideoId, parent: Option<CommentId>) returns (id: Option<CommentId>)
      modifies `comments, `next, `ever, `faults
      ensures id.Some? ==>
        && id.value == old(next) && v in videos
        && (parent.Some? ==> parent.value in old(comments) && old(comments)[parent.value].video == v)
        && comments == old(comments)[old(next) := Comment(v, u, parent)] && next == old(next) + 1 && ever == old(ever)[old(next) := v]
      ensures id.None? ==> comments == old(comments) && next == old(next) && ever == old(ever)
      ensures old(faults) == [] ==> faults == [] && (id.Some? <==> v in videos && ParentFits(old(comments), v, parent))
    {
      var fails := Fails();
      if fails || v !in videos || (parent.Some? && (parent.value !in comments || comments[parent.value].video != v)) {
        return None;
      }
      id := Some(next);
      comments := comments[next := Comment(v, u, parent)];
      ever := ever[next := v];
      next := next + 1;
    }

    /** The recursive CTE, round by round: the working table joins its replies until none is left. */
    method CountCommentSubtree(root: CommentId) returns (n: nat)
      requires Forest(comments, next)
      ensures n == CountSubtree(comments, next, root)
    {
      n := 0;
      var table: set<CommentId> := if root in comments then {root} else {};
      ghost var floor: nat := 0;
      while table != {}
        invariant floor <= next && forall i :: i in table ==> i in comments && i >= floor
        invariant n + CountRounds(comments, next, table, floor) == CountSubtree(comments, next, root)
        decreases next - floor
      {
        RoundsFit(comments, next, table, floor);
        n := n + |table|;
        table := set i | i in comments && comments[i].parent.Some? && comments[i].parent.value in table;
        floor := floor + 1;
      }
    }

    /** The rows that refer to the videos go with them. */
    method DeleteVideosByUser(u: UserId)
      modifies `videos, `likes, `comments
      ensures Abs() == RemoveVideos(old(Abs()), OwnedBy(old(videos), u))
    {
      var gone := set v | v in videos && videos[v].owner == u;
      assert gone == OwnedBy(videos, u);
      videos := videos - gone;
      likes := set l | l in likes && l.video !in gone;
      comments := map i | i in comments && comments[i].video !in gone :: comments[i];
    }

    method DeleteLikesByUser(u: UserId)
      modifies `likes
      ensures likes == set l | l in old(likes) && l.user != u
    {
      likes := set l | l in likes && l.user != u;
    }

    /** ON DELETE CASCADE takes the replies too. */
    method DeleteCommentsByUser(u: UserId)
      modifies `comments
      ensures comments == old(comments) - Doomed(old(comments), By(old(comments), u))
    {
      comments := comments - Doomed(comments, By(comments, u));
    }

    method DeleteCommentByID(id: CommentId)
      modifies `comments
      ensures comments == old(comments) - Doomed(old(comments), {id})
    {
      comments := comments - Doomed(comments, {id});
    }

    method DecrementCommentsCountBy(v: VideoId, n: nat)
      modifies `videos
      ensures videos == Counters.DecrementCommentsCountBy(old(videos), v, n)
    {
      if v in videos {
        videos := videos[v := videos[v].(comments := Minus(videos[v].comments, n))];
      }
    }

    method Notify(recipient: UserId, actor: UserId, kind: string) returns (ok: bool)
      modifies `notifications, `faults
      ensures notifications == if ok then old(notifications) + [Notification(recipient, actor, kind)] else old(notifications)
      ensures old(faults) == [] ==> ok && faults == []
    {
      var fails := Fails();
      ok := !fails;
      if ok {
        notifications := notifications + [Notification(recipient, actor, kind)];
      }
    }

    // ----- handlers -----

    /** `owner` is the video's owner as read before the transaction. */
    method LikeVideo(u: UserId, v: VideoId, owner: UserId) returns (ok: bool)
      requires Valid()
      modifies this
      ensures Valid()
      ensures ok ==> Counters.LikeVideo(old(Abs()), u, v) == Some(Abs())
      ensures ok ==> v in old(videos) && likes == old(likes) + {Like(u, v)}
      ensures ok ==> comments == old(comments) && next == old(next) && ever == old(ever)
      ensures ok && Like(u, v) in old(likes) ==> videos == old(videos)
      ensures ok && Like(u, v) !in old(likes) ==> videos == old(videos)[v := old(videos)[v].(likes := old(videos)[v].likes + 1)]
      ensures ok && (Like(u, v) in old(likes) || u == owner) ==> notifications == old(notifications)
      ensures ok && Like(u, v) !in old(likes) && u != owner ==>
        notifications == old(notifications) + [Notification(owner, u, "like")]
      ensures old(faults) == [] ==> (ok <==> v in old(videos))
      ensures !ok ==> Abs() == old(Abs()) && notifications == old(notifications)
    {
      var saved := Begin();
      var failed := LikeBody(u, v, owner);
      ok := End(saved, failed);
      if ok {
        LikePreserves(saved.tables, Abs(), u, v);
      }
    }

    method LikeBody(u: UserId, v: VideoId, owner: UserId) returns (failed: bool)
      modifies this
      ensures !failed ==> Counters.LikeVideo(old(Abs()), u, v) == Some(Abs())
      ensures old(faults) == [] ==> faults == [] && (!failed <==> v in old(videos))
      ensures !failed ==> notifications == old(notifications) + LikeNotices(old(likes), u, v, owner)
    {
      var liked := InsertLike(u, v);
      match liked
      case Existing => return false;
      case Refused => return true;
      case New =>
        failed := Fails();
        if failed { return; }
        videos := videos[v := videos[v].(likes := videos[v].likes + 1)];
        if u != owner {
          var sent := Notify(owner, u, "like");
          failed := !sent;
        }
    }

    method UnlikeVideo(u: UserId, v: VideoId) returns (ok: bool)
      requires Valid()
      modifies this
      ensures Valid() && notifications == old(notifications)
      ensures Abs() == if ok then Counters.UnlikeVideo(old(Abs()), u, v) else old(Abs())
      ensures ok ==> likes == old(likes) - {Like(u, v)} && comments == old(comments) && next == old(next) && ever == old(ever)
      ensures ok && Like(u, v) !in old(likes) ==> videos == old(videos)
      ensures ok && Like(u, v) in old(likes) ==>
        && v in old(videos) && old(videos)[v].likes > 0
        && videos == old(videos)[v := old(videos)[v].(likes := old(videos)[v].likes - 1)]
      ensures old(faults) == [] ==> ok
    {
      var saved := Begin();
      UnlikePreserves(Abs(), u, v);
      var failed := UnlikeBody(u, v);
      ok := End(saved, failed);
    }

    /** The row, then the guarded decrement if a row went. */
    method UnlikeBody(u: UserId, v: VideoId) returns (failed: bool)
      modifies this
      ensures notifications == old(notifications)
      ensures !failed ==> Abs() == Counters.UnlikeVideo(old(Abs()), u, v)
      ensures old(faults) == [] ==> faults == [] && !failed
    {
      failed := Fails();
      if !failed && Like(u, v) in likes {
        likes := likes - {Like(u, v)};
        failed := Fails();
        if !failed && v in videos && videos[v].likes > 0 {
          videos := videos[v := videos[v].(likes := videos[v].likes - 1)];
        }
      }
    }

    /** One comment more on the video; the new row's id is spent, and likes are as they were. */
    predicate CommentCounted(before: Tables, v: VideoId)
      requires v in before.videos
      reads this
    {
      && videos == before.videos[v := before.videos[v].(comments := before.videos[v].comments + 1)]
      && next == before.next + 1 && ever == before.ever[before.next := v] && likes == before.likes
    }

    method CreateComment(u: UserId, v: VideoId, owner: UserId) returns (ok: bool)
      requires Valid()
      modifies this
      ensures Valid()
      ensures ok ==> AddComment(old(Abs()), u, v, None) == Some(Abs())
      ensures ok ==> old(next) !in old(comments) && comments == old(comments)[old(next) := Comment(v, u, None)]
      ensures ok ==> v in old(videos) && CommentCounted(old(Abs()), v)
      ensures old(faults) == [] ==> (ok <==> v in old(videos))
      ensures ok ==>
        notifications == old(notifications) + (if u == owner then [] else [Notification(owner, u, "comment")])
      ensures !ok ==> Abs() == old(Abs()) && notifications == old(notifications)
    {
      var saved := Begin();
      var failed := CommentBody(u, v, None);
      if !failed && u != owner {
        var sent := Notify(owner, u, "comment");
        failed := !sent;
      }
      ok := End(saved, failed);
      if ok {
        AddCommentPreserves(saved.tables, Abs(), u, v, None);
      }
    }

    /** The row and the increment. */
    method CommentBody(u: UserId, v: VideoId, parent: Option<CommentId>) returns (failed: bool)
      modifies this
      ensures notifications == old(notifications)
      ensures !failed ==> AddComment(old(Abs()), u, v, parent) == Some(Abs())
      ensures old(faults) == [] ==> faults == [] && (!failed <==> v in old(videos) && ParentFits(old(comments), v, parent))
    {
      var id := InsertComment(u, v, parent);
      if id.None? { return true; }
      failed := Fails();
      if !failed {
        videos := videos[v := videos[v].(comments := videos[v].comments + 1)];
      }
    }

    /** `parent` and `owner` as read before the transaction. */
    method ReplyComment(u: UserId, parentId: CommentId, parent: Comment, owner: UserId) returns (ok: bool)
      requires Valid()
      modifies this
      ensures Valid()
      ensures ok ==> AddComment(old(Abs()), u, parent.video, Some(parentId)) == Some(Abs())
      ensures ok ==> old(next) !in old(comments) && comments == old(comments)[old(next) := Comment(parent.video, u, Some(parentId))]
      ensures ok ==> ParentFits(old(comments), parent.video, Some(parentId))
      ensures ok ==> parent.video in old(videos) && CommentCounted(old(Abs()), parent.video)
      ensures ok ==> Doomed(comments, {parentId}) == Doomed(old(comments), {parentId}) + {old(next)}
      ensures old(faults) == [] ==>
        (ok <==> parent.video in old(videos) && ParentFits(old(comments), parent.video, Some(parentId)))
      ensures ok ==> old(notifications) <= notifications
      ensures ok ==> forall n :: multiset(notifications[|old(notifications)|..])[n] == (if Due(n, u, owner, parent.author) then 1 else 0)
      ensures !ok ==> Abs() == old(Abs()) && notifications == old(notifications)
    {
      var saved := Begin();
      var failed := CommentBody(u, parent.video, Some(parentId));
      if !failed {
        failed := FanOut(u, owner, parent.author);
      }
      ok := End(saved, failed);
      if ok {
        OneNoticeEach(notifications[|saved.notifications|..], u, owner, parent.author);
        AddCommentPreserves(saved.tables, Abs(), u, parent.video, Some(parentId));
        NewRowInCascades(saved.tables.comments, saved.tables.next, Comment(parent.video, u, Some(parentId)), {parentId});
      }
    }

    /** Fills the recipients map, then notifies each of them once. */
    method FanOut(u: UserId, owner: UserId, parentAuthor: UserId) returns (failed: bool)
      modifies `notifications, `faults
      ensures !failed ==> old(notifications) <= notifications
      ensures !failed ==> NotifiesEach(notifications[|old(notifications)|..], u, Recipients(u, owner, parentAuthor))
      ensures old(faults) == [] ==> faults == [] && !failed
    {
      var recipients: set<UserId> := {};
      if owner != u {
        recipients := recipients + {owner};
      }
      if parentAuthor != u {
        recipients := recipients + {parentAuthor};
      }
      assert recipients == Recipients(u, owner, parentAuthor);
      failed := NotifyAll(recipients, u);
    }

    method NotifyAll(recipients: set<UserId>, u: UserId) returns (failed: bool)
      modifies `notifications, `faults
      ensures !failed ==> old(notifications) <= notifications
      ensures !failed ==> NotifiesEach(notifications[|old(notifications)|..], u, recipients)
      ensures old(faults) == [] ==> faults == [] && !failed
    {
      var left := recipients;
      ghost var news: seq<Notification> := [];
      assert recipients - left == {};
      while left != {}
        invariant left <= recipients && notifications == old(notifications) + news
        invariant NotifiesEach(news, u, recipients - left) && (old(faults) == [] ==> faults == [])
        decreases left
      {
        var recipient :| recipient in left;
        var sent := Notify(recipient, u, "comment");
        if !sent { return true; }
        OneMoreNotice(news, recipients, left, recipient, u);
        news := news + [Notification(recipient, u, "comment")];
        left := left - {recipient};
      }
      assert recipients - {} == recipients;
      assert notifications[|old(notifications)|..] == news;
      failed := false;
    }

    /** `v` is the comment's video as read before the transaction, possibly long ago. */
    method DeleteComment(id: CommentId, v: VideoId) returns (ok: bool)
      requires Valid() && id in ever && ever[id] == v
      modifies this
      ensures Valid() && notifications == old(notifications)
      ensures ok ==> Forest(old(comments), old(next)) && Abs() == Counters.DeleteComment(old(Abs()), id, v)
      ensures ok ==> comments == old(comments) - Doomed(old(comments), {id})
      ensures ok ==> likes == old(likes) && next == old(next) && ever == old(ever)
      ensures ok && id !in old(comments) ==> videos == old(videos)
      ensures ok && id in old(comments) ==>
        && v in old(videos) && |Doomed(old(comments), {id})| <= old(videos)[v].comments
        && videos == old(videos)[v := old(videos)[v].(comments := old(videos)[v].comments - |Doomed(old(comments), {id})|)]
      ensures old(faults) == [] ==> ok
      ensures !ok ==> Abs() == old(Abs())
    {
      var saved := Begin();
      var failed := DeleteBody(id, v);
      ok := End(saved, failed);
      if ok {
        DeleteCommentPreserves(saved.tables, id, v);
        DeleteCommentLeaves(saved.tables, id, v);
      }
    }

    method DeleteBody(id: CommentId, v: VideoId) returns (failed: bool)
      requires Forest(comments, next)
      modifies this
      ensures notifications == old(notifications)
      ensures !failed ==> Abs() == Counters.DeleteComment(old(Abs()), id, v)
      ensures old(faults) == [] ==> faults == [] && !failed
    {
      failed := Fails();
      if failed { return; }
      var subtree := CountCommentSubtree(id);
      failed := Fails();
      if failed { return; }
      DeleteCommentByID(id);
      if subtree > 0 {
        failed := Fails();
        if failed { return; }
        DecrementCommentsCountBy(v, subtree);
      }
    }

    /** The cascade of an account deletion, decrements before deletes. */
    method DeleteUserData(u: UserId) returns (ok: bool)
      requires Valid()
      modifies this
      ensures Valid() && notifications == old(notifications)
      ensures Abs() == if ok then DeleteAccount(old(Abs()), u) else old(Abs())
      ensures ok ==> forall v :: v in videos <==> v in old(videos) && old(videos)[v].owner != u
      ensures ok ==> forall l :: l in likes <==> l in old(likes) && l.user != u && old(videos)[l.video].owner != u
      ensures ok ==> forall i :: i in comments <==>
        && i in old(comments) && old(videos)[old(comments)[i].video].owner != u
        && i !in Doomed(old(comments), By(old(comments), u))
      ensures old(faults) == [] ==> ok
    {
      var saved := Begin();
      AccountPreserves(Abs(), u);
      AccountDeletionLeaves(Abs(), u);
      videos := DecrementLikesForUser(videos, likes, u);
      videos := DecrementCommentsForUser(videos, comments, u);
      DeleteVideosByUser(u);
      DeleteLikesByUser(u);
      DeleteCommentsByUser(u);
      var failed := Fails();
      ok := End(saved, failed);
    }
  }

  lemma OneNoticeEach(news: seq<Notification>, actor: UserId, owner: UserId, parentAuthor: UserId)
    requires NotifiesEach(news, actor, Recipients(actor, owner, parentAuthor))
    ensures forall n :: multiset(news)[n] == (if Due(n, actor, owner, parentAuthor) then 1 else 0)
  {
  }

  lemma OneMoreNotice(news: seq<Notification>, recipients: set<UserId>, left: set<UserId>, u: UserId, actor: UserId)
    requires left <= recipients && u in left && NotifiesEach(news, actor, recipients - left)
    ensures NotifiesEach(news + [Notification(u, actor, "comment")], actor, recipients - (left - {u}))
  {
    var done := recipients - left;
    assert recipients - (left - {u}) == done + {u};
    var before := set w | w in done :: Notification(w, actor, "comment");
    var after := set w | w in done + {u} :: Notification(w, actor, "comment");
    assert after == before + {Notification(u, actor, "comment")};
    assert Notification(u, actor, "comment") !in before;
    assert multiset(after) == multiset(before) + multiset{Notification(u, actor, "comment")};
  }
}
