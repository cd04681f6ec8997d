/** What the theorems about runs say of the programs. */
module Playback {
  import opened Model
  import opened Lifecycle
  import opened Deployment
  import OneTask
  import Published
  import Uniqueness

  /** A READY video of an active owner plays, whatever the handlers and the others have done before. */
  lemma ReadyVideosPlay(c: Cluster, v: VideoId)
    requires c.Valid() && v in c.db.rows && c.db.rows[v].status == Ready && Active(c.Abs(), c.db.rows[v].owner)
    requires Published.NothingUnsafe(c.trace, c.db.rows[v].owner, v)
    ensures v in c.log.published
    ensures Playable(c.store.keys, c.db.rows[v].owner, v, c.log.published[v])
  {
    Published.PublishedAssetsAreSafe(c.trace, v);
  }

  /** A PROCESSING video is being worked on, or its task waits; the programs never hold two. */
  lemma ProcessingVideosHaveTheirTask(c: Cluster, v: VideoId)
    requires c.Valid() && OneTask.IsProcessing(c.Abs(), v) && OneTask.AllTame(c.trace, v)
    ensures Uniqueness.Live(c.Abs(), v) == 1
  {
    OneTask.ExactlyOneTask(c.trace, v);
  }
}
