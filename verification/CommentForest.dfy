/** Comments form a forest: a reply has a later id than its parent and lies in the same video.
    The recursive CTE that counts a subtree terminates and counts exactly the rows that the
    foreign key's ON DELETE CASCADE removes. */
module CommentForest {
  import opened Model

  /** Ids are given in order of insertion and never reused. */
  type CommentId = nat

  datatype Comment = Comment(video: VideoId, author: UserId, parent: Option<CommentId>)

  type Comments = map<CommentId, Comment>

  /** What the primary and the composite foreign key keep: a parent exists, is older, and is a
      comment of the same video. */
  predicate Forest(c: Comments, next: CommentId) {
    && (forall i :: i in c ==> i < next)
    && (forall i :: i in c && c[i].parent.Some? ==>
          c[i].parent.value in c && c[i].parent.value < i && c[c[i].parent.value].video == c[i].video)
  }

  // ----- ON DELETE CASCADE -----

  /** `i` is one of the roots or a reply, at any depth, to one of them. */
  predicate Below(c: Comments, i: CommentId, roots: set<CommentId>)
    decreases i
  {
    && i in c
    && (i in roots || (c[i].parent.Some? && c[i].parent.value < i && Below(c, c[i].parent.value, roots)))
  }

  /** The rows a DELETE of `roots` removes. */
  function Doomed(c: Comments, roots: set<CommentId>): set<CommentId> {
    set i | i in c && Below(c, i, roots)
  }

  /** A set that a cascade may stop at: with a row it contains the replies to it. */
  predicate Closed(c: Comments, s: set<CommentId>) {
    forall i :: i in c && c[i].parent.Some? && c[i].parent.value in s ==> i in s
  }

  /** The cascade is the least closed set with the deleted rows. */
  lemma CascadeIsLeast(c: Comments, next: CommentId, roots: set<CommentId>, s: set<CommentId>)
    requires Forest(c, next)
    ensures Closed(c, Doomed(c, roots)) && (forall i :: i in roots && i in c ==> i in Doomed(c, roots))
    ensures Closed(c, s) && (forall i :: i in roots && i in c ==> i in s) ==> Doomed(c, roots) <= s
  {
    if Closed(c, s) && forall i :: i in roots && i in c ==> i in s {
      forall i | i in Doomed(c, roots) ensures i in s {
        BelowIsIn(c, i, roots, s);
      }
    }
  }

  lemma {:induction false} BelowIsIn(c: Comments, i: CommentId, roots: set<CommentId>, s: set<CommentId>)
    requires Below(c, i, roots) && Closed(c, s) && forall j :: j in roots && j in c ==> j in s
    ensures i in s
    decreases i
  {
    if i !in roots {
      BelowIsIn(c, c[i].parent.value, roots, s);
    }
  }

  /** A subtree lies in one video. */
  lemma {:induction false} OneVideo(c: Comments, next: CommentId, i: CommentId, root: CommentId)
    requires Forest(c, next) && Below(c, i, {root})
    ensures root in c && c[i].video == c[root].video
    decreases i
  {
    if i != root {
      OneVideo(c, next, c[i].parent.value, root);
    }
  }

  /** What a cascade leaves is a forest again. */
  lemma CascadeKeepsForest(c: Comments, next: CommentId, roots: set<CommentId>)
    requires Forest(c, next)
    ensures Forest(c - Doomed(c, roots), next)
  {
    CascadeIsLeast(c, next, roots, {});
  }

  // ----- the recursive CTE -----

  /** The recursive term: the rows that join the working table. Each row has one parent, so no
      row joins twice. */
  function Replies(c: Comments, table: set<CommentId>): set<CommentId> {
    set i | i in c && c[i].parent.Some? && c[i].parent.value in table
  }

  /** UNION ALL: every round's rows are counted, and the rounds go on until one is empty. Each
      round's ids are at least one higher, which is why they end. */
  function CountRounds(c: Comments, next: CommentId, table: set<CommentId>, floor: nat): nat
    requires Forest(c, next) && floor <= next
    requires forall i :: i in table ==> i in c && i >= floor
    decreases next - floor
  {
    if table == {} then 0
    else
      RoundsFit(c, next, table, floor);
      |table| + CountRounds(c, next, Replies(c, table), floor + 1)
  }

  lemma RoundsFit(c: Comments, next: CommentId, table: set<CommentId>, floor: nat)
    requires Forest(c, next) && table != {} && forall i :: i in table ==> i in c && i >= floor
    ensures floor < next
  {
    var i :| i in table;
  }

  /** CountCommentSubtree. */
  function CountSubtree(c: Comments, next: CommentId, root: CommentId): nat
    requires Forest(c, next)
  {
    CountRounds(c, next, if root in c then {root} else {}, 0)
  }

  function Depth(c: Comments, i: CommentId): nat
    decreases i
  {
    if i in c && c[i].parent.Some? && c[i].parent.value < i then 1 + Depth(c, c[i].parent.value) else 0
  }

  lemma {:induction false} BelowIsDeeper(c: Comments, i: CommentId, table: set<CommentId>, d: nat)
    requires Below(c, i, table) && forall j :: j in table ==> Depth(c, j) == d
    ensures Depth(c, i) >= d
    decreases i
  {
    if i !in table {
      BelowIsDeeper(c, c[i].parent.value, table, d);
    }
  }

  /** Under the table is the table itself or under the replies to it. */
  lemma {:induction false} BelowSplits(c: Comments, next: CommentId, i: CommentId, table: set<CommentId>)
    requires Forest(c, next) && i in c
    ensures Below(c, i, table) <==> i in table || Below(c, i, Replies(c, table))
    decreases i
  {
    if c[i].parent.Some? {
      BelowSplits(c, next, c[i].parent.value, table);
    }
  }

  /** The CTE counts each row of the cascade exactly once. */
  lemma {:induction false} RoundsCountDoomed(c: Comments, next: CommentId, table: set<CommentId>, floor: nat, d: nat)
    requires Forest(c, next) && floor <= next
    requires forall i :: i in table ==> i in c && i >= floor && Depth(c, i) == d
    ensures CountRounds(c, next, table, floor) == |Doomed(c, table)|
    decreases next - floor
  {
    if table == {} {
      forall i | i in c ensures !Below(c, i, {}) {
        NothingBelowNothing(c, i);
      }
      assert Doomed(c, table) == {};
    } else {
      RoundsFit(c, next, table, floor);
      RoundsCountDoomed(c, next, Replies(c, table), floor + 1, d + 1);
      TableAndReplies(c, next, table, d);
    }
  }

  /** One round: the table, and apart from it what is under the replies. */
  lemma TableAndReplies(c: Comments, next: CommentId, table: set<CommentId>, d: nat)
    requires Forest(c, next) && forall i :: i in table ==> i in c && Depth(c, i) == d
    ensures |Doomed(c, table)| == |table| + |Doomed(c, Replies(c, table))|
  {
    var replies := Replies(c, table);
    forall i | i in c ensures Below(c, i, table) <==> i in table || Below(c, i, replies) {
      BelowSplits(c, next, i, table);
    }
    forall i | i in Doomed(c, replies) ensures i !in table {
      BelowIsDeeper(c, i, replies, d + 1);
    }
    assert Doomed(c, table) == table + Doomed(c, replies);
  }

  lemma {:induction false} NothingBelowNothing(c: Comments, i: CommentId)
    ensures !Below(c, i, {})
    decreases i
  {
    if i in c && c[i].parent.Some? && c[i].parent.value < i {
      NothingBelowNothing(c, c[i].parent.value);
    }
  }

  /** The theorem: the count taken before the delete is the number of rows the delete removes,
      0 for a comment that is already gone. */
  lemma CountIsCascadeSize(c: Comments, next: CommentId, root: CommentId)
    requires Forest(c, next)
    ensures CountSubtree(c, next, root) == |Doomed(c, {root})|
    ensures root !in c ==> CountSubtree(c, next, root) == 0
  {
    var table: set<CommentId> := if root in c then {root} else {};
    RoundsCountDoomed(c, next, table, 0, Depth(c, root));
    forall i | i in c ensures Below(c, i, table) <==> Below(c, i, {root}) {
      SameRoots(c, i, root);
    }
    assert Doomed(c, table) == Doomed(c, {root});
  }

  lemma {:induction false} SameRoots(c: Comments, i: CommentId, root: CommentId)
    ensures Below(c, i, if root in c then {root} else {}) <==> Below(c, i, {root})
    decreases i
  {
    if i in c && c[i].parent.Some? && c[i].parent.value < i {
      SameRoots(c, c[i].parent.value, root);
    }
  }

  // ----- replies -----

  /** A new row changes nothing for the rows there are. */
  lemma {:induction false} OlderRowsStay(c: Comments, next: CommentId, row: Comment, i: CommentId, roots: set<CommentId>)
    requires Forest(c, next) && i in c
    ensures Below(c[next := row], i, roots) <==> Below(c, i, roots)
    decreases i
  {
    if c[i].parent.Some? {
      OlderRowsStay(c, next, row, c[i].parent.value, roots);
    }
  }

  /** A reply joins the cascade of each comment that its parent is below, and of no other; a comment without a
      parent joins none. */
  lemma NewRowInCascades(c: Comments, next: CommentId, row: Comment, roots: set<CommentId>)
    requires Forest(c, next) && next !in roots
    requires row.parent.Some? ==> row.parent.value in c && c[row.parent.value].video == row.video
    ensures Forest(c[next := row], next + 1)
    ensures Doomed(c[next := row], roots)
      == Doomed(c, roots) + (if row.parent.Some? && row.parent.value in Doomed(c, roots) then {next} else {})
  {
    var c' := c[next := row];
    forall i | i in c ensures Below(c', i, roots) <==> Below(c, i, roots) {
      OlderRowsStay(c, next, row, i, roots);
    }
    assert next !in c && c'[next] == row;
  }

  /** The theorem: after a reply the subtree count of its parent, and of every comment its parent is below, is one
      higher; every other count is as it was. */
  lemma ReplyIsCounted(c: Comments, next: CommentId, video: VideoId, author: UserId, parent: CommentId, root: CommentId)
    requires Forest(c, next) && parent in c && c[parent].video == video && root != next
    ensures
      var c' := c[next := Comment(video, author, Some(parent))];
      && Forest(c', next + 1)
      && CountSubtree(c', next + 1, root) == CountSubtree(c, next, root) + (if Below(c, parent, {root}) then 1 else 0)
      && CountSubtree(c', next + 1, parent) == CountSubtree(c, next, parent) + 1
      && CountSubtree(c', next + 1, next) == 1
  {
    var row := Comment(video, author, Some(parent));
    var c' := c[next := row];
    CountGrows(c, next, row, root);
    CountGrows(c, next, row, parent);
    assert Below(c, parent, {parent});
    CountIsCascadeSize(c', next + 1, next);
    forall i | i in Doomed(c', {next}) ensures i == next {
      NothingUnderNew(c, next, row, i);
    }
    assert Doomed(c', {next}) == {next};
  }

  lemma CountGrows(c: Comments, next: CommentId, row: Comment, root: CommentId)
    requires Forest(c, next) && root != next && row.parent.Some? && row.parent.value in c && c[row.parent.value].video == row.video
    ensures Forest(c[next := row], next + 1)
    ensures CountSubtree(c[next := row], next + 1, root)
      == CountSubtree(c, next, root) + (if Below(c, row.parent.value, {root}) then 1 else 0)
  {
    NewRowInCascades(c, next, row, {root});
    CountIsCascadeSize(c, next, root);
    CountIsCascadeSize(c[next := row], next + 1, root);
    assert next !in Doomed(c, {root});
  }

  lemma {:induction false} NothingUnderNew(c: Comments, next: CommentId, row: Comment, i: CommentId)
    requires Forest(c, next) && Below(c[next := row], i, {next})
    ensures i == next
    decreases i
  {
    if i != next {
      NothingUnderNew(c, next, row, c[i].parent.value);
    }
  }
}
