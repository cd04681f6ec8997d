/** The vocabulary shared by the lifecycle modules: identifiers, object-store keys,
    database rows, queue tasks and the constants of the protocol. */
module Model {
  type UserId = nat
  type VideoId = nat

  datatype Option<+T> = None | Some(value: T)

  /** How many attempts a confirmed video gets. */
  const MAX_RETRIES: nat := 3

  /** Seconds a tombstone is kept before its objects and its row are removed. */
  const GRACE: nat := 86_400

  /** The most keys one DeleteObjects request may carry. */
  const DELETE_LIMIT: nat := 1000

  /** Seconds of back-off per attempt already made. */
  const BACKOFF_STEP: nat := 30

  /** A key of the object store. `Keys.Render` gives its text. */
  datatype Key =
    | Raw(owner: UserId, upload: nat)                     // uploads/<owner>/<upload>/source.mp4
    | Hls(owner: UserId, video: VideoId, path: string)    // hls/<owner>/<video>/<path>
    | Thumb(owner: UserId, video: VideoId)                // thumbs/<owner>/<video>/thumb.jpg

  /** `k` is something a transcode of user `u`'s video `v` publishes. */
  predicate MediaOf(k: Key, u: UserId, v: VideoId) {
    !k.Raw? && k.owner == u && k.video == v
  }

  predicate NamesMedia(keys: seq<Key>, u: UserId, v: VideoId) {
    exists i :: 0 <= i < |keys| && MediaOf(keys[i], u, v)
  }

  /** The value of `hls_prefix`: hls/<owner>/<video>. */
  datatype Prefix = Prefix(owner: UserId, video: VideoId)

  predicate Under(k: Key, p: Prefix) {
    k.Hls? && k.owner == p.owner && k.video == p.video
  }

  function KeySet(keys: seq<Key>): set<Key> {
    set k | k in keys
  }

  /** The files ffmpeg wrote for the two variants, by name. */
  datatype Files = Files(sd: seq<string>, hd: seq<string>)

  const INDEX := "index.m3u8"
  const MASTER := "master.m3u8"
  const SD := "480p"
  const HD := "720p"

  /** ffmpeg always writes the variant playlist itself. */
  predicate FilesOk(f: Files) {
    INDEX in f.sd && INDEX in f.hd
  }

  function VariantKeys(owner: UserId, v: VideoId, dir: string, names: seq<string>): (keys: seq<Key>)
    ensures |keys| == |names|
  {
    seq(|names|, i requires 0 <= i < |names| => Hls(owner, v, dir + "/" + names[i]))
  }

  /** Everything one successful attempt uploads, in upload order. */
  function Assets(owner: UserId, v: VideoId, f: Files): seq<Key> {
    VariantKeys(owner, v, SD, f.sd) + VariantKeys(owner, v, HD, f.hd) + [Thumb(owner, v), Hls(owner, v, MASTER)]
  }

  /** What a player of the video may ask for is stored: every file of both variants, the thumbnail
      and the master. */
  predicate Playable(keys: set<Key>, owner: UserId, v: VideoId, f: Files) {
    && (forall n :: n in f.sd ==> Hls(owner, v, SD + "/" + n) in keys)
    && (forall n :: n in f.hd ==> Hls(owner, v, HD + "/" + n) in keys)
    && Thumb(owner, v) in keys && Hls(owner, v, MASTER) in keys
  }

  /** `k` is one of these objects. */
  predicate FileOf(k: Key, owner: UserId, v: VideoId, f: Files) {
    || (exists n :: n in f.sd && k == Hls(owner, v, SD + "/" + n))
    || (exists n :: n in f.hd && k == Hls(owner, v, HD + "/" + n))
    || k == Thumb(owner, v) || k == Hls(owner, v, MASTER)
  }

  /** The upload list holds these objects and nothing else. */
  lemma AssetsAreTheFiles(owner: UserId, v: VideoId, f: Files)
    ensures forall k :: k in Assets(owner, v, f) <==> FileOf(k, owner, v, f)
    ensures Playable(KeySet(Assets(owner, v, f)), owner, v, f)
  {
    var keys, sd, hd := Assets(owner, v, f), VariantKeys(owner, v, SD, f.sd), VariantKeys(owner, v, HD, f.hd);
    forall k ensures k in keys <==> FileOf(k, owner, v, f) {
      VariantKeysAreTheFiles(owner, v, SD, f.sd, k);
      VariantKeysAreTheFiles(owner, v, HD, f.hd, k);
    }
    forall n | n in f.sd ensures Hls(owner, v, SD + "/" + n) in keys {
      assert FileOf(Hls(owner, v, SD + "/" + n), owner, v, f);
    }
    forall n | n in f.hd ensures Hls(owner, v, HD + "/" + n) in keys {
      assert FileOf(Hls(owner, v, HD + "/" + n), owner, v, f);
    }
  }

  lemma VariantKeysAreTheFiles(owner: UserId, v: VideoId, dir: string, names: seq<string>, k: Key)
    ensures k in VariantKeys(owner, v, dir, names) <==> exists n :: n in names && k == Hls(owner, v, dir + "/" + n)
  {
    var keys := VariantKeys(owner, v, dir, names);
    if k in keys {
      var i :| 0 <= i < |keys| && keys[i] == k;
      assert names[i] in names;
    }
    if n :| n in names && k == Hls(owner, v, dir + "/" + n) {
      var i :| 0 <= i < |names| && names[i] == n;
      assert keys[i] == k;
    }
  }

  datatype Status = PendingUpload | Processing | Ready | Failed | Deleted

  datatype Row = Row(
    owner: UserId,
    r2Key: Key,
    status: Status,
    retryCount: nat,
    hlsPrefix: Option<Prefix>,
    thumbnail: Option<Key>,
    deletedAt: Option<nat>)

  datatype User = User(active: bool, deletedAt: Option<nat>)

  /** History of a cleanup:video task, read by no step: the tombstone writes there had been
      when it was created, and how often it has been re-enqueued. */
  datatype Stamp = Stamp(mark: nat, hops: nat)

  datatype Task =
    | Transcode(video: VideoId)
    | CleanupObjects(keys: seq<Key>)
    | CleanupVideo(tombstone: VideoId, seen: Stamp)
    | ReconcileTick(batch: nat, dryRun: bool)

  /** A task in the queue and the time from which it may run. */
  datatype Entry = Entry(task: Task, due: nat)
}
