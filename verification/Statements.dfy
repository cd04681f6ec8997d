/** The SQL statements on `videos`, as functions on the table. Every UPDATE is checked
    against the table's CHECK constraints; a refused statement leaves the table alone. */
module Statements {
  import opened Model

  type Rows = map<VideoId, Row>

  datatype SqlResult =
    | Updated(rows: Rows, row: Row)
    | NoRows
    | Violation

  /** chk_videos_retry and chk_videos_deleted_at. */
  predicate RowOk(r: Row) {
    && r.retryCount <= MAX_RETRIES
    && (r.status == Deleted <==> r.deletedAt.Some?)
  }

  function Write(rows: Rows, v: VideoId, row: Row): SqlResult {
    if RowOk(row) then Updated(rows[v := row], row) else Violation
  }

  predicate KeyTaken(rows: Rows, key: Key, except: VideoId) {
    exists w | w in rows :: w != except && rows[w].r2Key == key
  }

  predicate HasPending(rows: Rows, owner: UserId) {
    exists w | w in rows :: rows[w].owner == owner && rows[w].status == PendingUpload
  }

  /** r2_key is UNIQUE and a user has at most one PENDING_UPLOAD row. */
  function InsertVideo(rows: Rows, v: VideoId, owner: UserId, key: Key): SqlResult
    requires v !in rows
  {
    if KeyTaken(rows, key, v) || HasPending(rows, owner) then Violation
    else Write(rows, v, Row(owner, key, PendingUpload, 0, None, None, None))
  }

  function UpdatePendingVideoR2Key(rows: Rows, v: VideoId, key: Key): SqlResult {
    if v !in rows || rows[v].status != PendingUpload then NoRows
    else if KeyTaken(rows, key, v) then Violation
    else Write(rows, v, rows[v].(r2Key := key))
  }

  function ConfirmVideoProcessing(rows: Rows, v: VideoId, owner: UserId, key: Key): SqlResult {
    if v !in rows || rows[v].owner != owner || rows[v].status != PendingUpload || rows[v].r2Key != key then NoRows
    else Write(rows, v, rows[v].(status := Processing, retryCount := 0))
  }

  function IncrementVideoRetry(rows: Rows, v: VideoId): SqlResult {
    if v !in rows || (rows[v].status != Processing && rows[v].status != PendingUpload) then NoRows
    else Write(rows, v, rows[v].(retryCount := rows[v].retryCount + 1))
  }

  function MarkVideoReady(rows: Rows, v: VideoId, prefix: Prefix, thumbnail: Key): SqlResult {
    if v !in rows || rows[v].status != Processing then NoRows
    else Write(rows, v, rows[v].(status := Ready, hlsPrefix := Some(prefix), thumbnail := Some(thumbnail)))
  }

  /** No status guard: only the CHECK constraint keeps a tombstone. */
  function MarkVideoFailed(rows: Rows, v: VideoId): SqlResult {
    if v !in rows then NoRows else Write(rows, v, rows[v].(status := Failed))
  }

  /** No status guard either: a second delete refreshes deleted_at. */
  function MarkVideoDeleted(rows: Rows, v: VideoId, owner: UserId, now: nat): SqlResult {
    if v !in rows || rows[v].owner != owner then NoRows
    else Write(rows, v, rows[v].(status := Deleted, deletedAt := Some(now)))
  }

  function DeleteVideosByUser(rows: Rows, owner: UserId): Rows {
    map v | v in rows && rows[v].owner != owner :: rows[v]
  }
}
