/** The R2 client: DeleteObjects, ListObjectsByPrefix and the batched DeletePrefix, over a bucket
    that answers listings in arbitrary pages and may refuse any request. */
module ObjectStore {
  import opened Model

  const BATCH_SIZE: nat := 1000

  datatype Failure = BadPrefix | ListFailed | RequestFailed | KeyFailed(key: string)

  datatype KeyError = KeyError(key: string, notFound: bool)

  /** The store's answer to one delete request. A refused request may have deleted some keys. */
  datatype Reply =
    | Refused(gone: set<string>)
    | Answered(errors: seq<KeyError>)

  /** One page of a listing, or its failure. */
  datatype Page = Contents(keys: seq<string>) | PageFailed

  // ----- specification functions -----

  function NonEmpty(keys: seq<string>): (r: seq<string>)
    ensures forall k :: k in r <==> k in keys && k != ""
  {
    if keys == [] then []
    else NonEmpty(keys[..|keys| - 1]) + (if keys[|keys| - 1] == "" then [] else [keys[|keys| - 1]])
  }

  function Concat(batches: seq<seq<string>>): seq<string> {
    if batches == [] then [] else Concat(batches[..|batches| - 1]) + batches[|batches| - 1]
  }

  /** The keys of the pages before the first failure. */
  function Listed(pages: seq<Page>): seq<string> {
    if pages == [] || pages[0].PageFailed? then [] else pages[0].keys + Listed(pages[1..])
  }

  predicate AnyFails(pages: seq<Page>) {
    exists i :: 0 <= i < |pages| && pages[i].PageFailed?
  }

  function AsSet(keys: seq<string>): set<string> {
    set k | k in keys
  }

  /** The first error in the answer that is not about a missing key. */
  function RealError(errors: seq<KeyError>): Option<Failure> {
    if errors == [] then None
    else if errors[0].notFound then RealError(errors[1..])
    else Some(KeyFailed(errors[0].key))
  }

  function First(results: seq<Option<Failure>>): Option<Failure> {
    if results == [] then None
    else if First(results[..|results| - 1]).Some? then First(results[..|results| - 1])
    else results[|results| - 1]
  }

  predicate AllSlashes(s: string) {
    forall i :: 0 <= i < |s| ==> s[i] == '/'
  }

  /** What the prefix guards accept: non-empty, ending in a slash, not slashes only. */
  predicate GoodPrefix(prefix: string) {
    prefix != "" && prefix[|prefix| - 1] == '/' && !AllSlashes(prefix)
  }

  /** Of `before` only keys in `done` are gone; all of them, if nothing has failed. */
  predicate Removes(before: set<string>, keys: set<string>, done: seq<string>, clean: bool) {
    && keys <= before
    && (forall k :: k in before && k !in keys ==> k in done)
    && (clean ==> forall k :: k in keys ==> k !in done)
  }

  // ----- lemmas -----

  lemma RemovesStep(before: set<string>, keys: set<string>, keys': set<string>, done: seq<string>, batch: seq<string>, clean: bool, clean': bool)
    requires Removes(before, keys, done, clean) && Removes(keys, keys', batch, clean') && (clean' ==> clean)
    ensures Removes(before, keys', done + batch, clean')
  {
  }

  lemma NonEmptyAppend(keys: seq<string>, k: string)
    ensures NonEmpty(keys + [k]) == NonEmpty(keys) + (if k == "" then [] else [k])
  {
    assert (keys + [k])[..|keys|] == keys;
  }

  lemma {:induction false} NonEmptyKeeps(keys: seq<string>)
    requires "" !in keys
    ensures NonEmpty(keys) == keys
  {
    if keys != [] {
      var n := |keys| - 1;
      assert keys[n] in keys;
      NonEmptyKeeps(keys[..n]);
      assert keys == keys[..n] + [keys[n]];
    }
  }

  lemma ConcatAppend(batches: seq<seq<string>>, b: seq<string>)
    ensures Concat(batches + [b]) == Concat(batches) + b
  {
    assert (batches + [b])[..|batches|] == batches;
  }

  lemma FirstAppend(results: seq<Option<Failure>>, r: Option<Failure>)
    ensures First(results + [r]) == if First(results).Some? then First(results) else r
  {
    assert (results + [r])[..|results|] == results;
  }

  /** Pages seen so far, then one more. */
  lemma {:induction false} ListedAppend(pages: seq<Page>, p: Page)
    requires !AnyFails(pages)
    ensures Listed(pages + [p]) == Listed(pages) + (if p.PageFailed? then [] else p.keys)
  {
    if pages == [] {
      assert ([p])[1..] == [];
    } else {
      assert !pages[0].PageFailed?;
      assert forall i :: 0 <= i < |pages[1..]| ==> pages[1..][i] == pages[i + 1];
      ListedAppend(pages[1..], p);
      assert (pages + [p])[1..] == pages[1..] + [p];
    }
  }

  lemma {:induction false} ListedStops(pages: seq<Page>, i: nat)
    requires i < |pages| && pages[i].PageFailed? && !AnyFails(pages[..i])
    ensures Listed(pages) == Listed(pages[..i])
  {
    if i > 0 {
      assert !pages[..i][0].PageFailed?;
      assert pages[..i][1..] == pages[1..][..i - 1];
      assert forall j {:trigger pages[1..][..i - 1][j]} :: 0 <= j < i - 1 ==> pages[1..][..i - 1][j] == pages[..i][j + 1];
      ListedStops(pages[1..], i - 1);
    }
  }

  // ----- the client -----

  class Bucket {
    var keys: set<string>
    var replies: seq<Reply>
    ghost var sent: seq<seq<string>>               // delete requests, in order
    ghost var results: seq<Option<Failure>>        // what DeleteObjects made of each

    ghost predicate Valid()
      reads this
    {
      |sent| == |results|
    }

    constructor (keys: set<string>, replies: seq<Reply>)
      ensures Valid() && this.keys == keys && sent == []
    {
      this.keys, this.replies := keys, replies;
      sent, results := [], [];
    }

    /** The request's entries: the batch without empty keys. */
    method Identifiers(batch: seq<string>) returns (objects: seq<string>)
      ensures objects == NonEmpty(batch)
    {
      objects := [];
      for i := 0 to |batch|
        invariant objects == NonEmpty(batch[..i])
      {
        assert batch[..i + 1] == batch[..i] + [batch[i]];
        NonEmptyAppend(batch[..i], batch[i]);
        if batch[i] != "" {
          objects := objects + [batch[i]];
        }
      }
      assert batch[..|batch|] == batch;
    }

    /** Deletes a batch. Missing keys are no error; of the other errors the first is returned. */
    method DeleteObjects(batch: seq<string>) returns (err: Option<Failure>)
      requires Valid()
      modifies this
      ensures Valid()
      ensures NonEmpty(batch) == [] ==> err == None && keys == old(keys) && sent == old(sent) && results == old(results)
      ensures NonEmpty(batch) != [] ==> sent == old(sent) + [NonEmpty(batch)] && results == old(results) + [err]
      ensures Removes(old(keys), keys, NonEmpty(batch), err.None?)
      ensures err.Some? ==> err.value.RequestFailed? || err.value.KeyFailed?
    {
      err := None;
      var objects := Identifiers(batch);
      if objects == [] {
        return;
      }
      var reply := Answered([]);
      if replies != [] {
        reply, replies := replies[0], replies[1..];
      }
      match reply {
        case Refused(gone) =>
          keys := keys - (gone * AsSet(objects));
          err := Some(RequestFailed);
        case Answered(errors) =>
          var kept := set e | e in errors && !e.notFound :: e.key;
          keys := keys - (AsSet(objects) - kept);
          err := FirstRealError(errors);
      }
      sent, results := sent + [objects], results + [err];
    }

    predicate IsFirstReal(errors: seq<KeyError>, i: nat)
      requires i < |errors|
    {
      !errors[i].notFound && forall j :: 0 <= j < i ==> errors[j].notFound
    }

    /** The loop over the response's per-key errors. */
    method FirstRealError(errors: seq<KeyError>) returns (err: Option<Failure>)
      ensures err == RealError(errors)
      ensures err.Some? ==> exists i :: 0 <= i < |errors| && IsFirstReal(errors, i) && err.value == KeyFailed(errors[i].key)
      ensures err.None? ==> forall e :: e in errors ==> e.notFound
    {
      for i := 0 to |errors|
        invariant RealError(errors) == RealError(errors[i..])
        invariant forall j :: 0 <= j < i ==> errors[j].notFound
      {
        assert errors[i..][1..] == errors[i + 1..];
        if !errors[i].notFound {
          return Some(KeyFailed(errors[i].key));
        }
      }
      return None;
    }

    /** The flush closure of DeletePrefix: sends a non-empty batch, keeps the first error. */
    method Flush(batch: seq<string>, firstErr: Option<Failure>) returns (err: Option<Failure>)
      requires Valid() && "" !in batch
      modifies this
      ensures Valid()
      ensures if batch == [] then sent == old(sent) && results == old(results)
              else sent == old(sent) + [batch] && |results| == |old(results)| + 1 && results == old(results) + [results[|old(results)|]]
      ensures err == if firstErr.Some? || batch == [] then firstErr else results[|old(results)|]
      ensures Removes(old(keys), keys, batch, err.None?)
    {
      err := firstErr;
      if batch == [] {
        return;
      }
      NonEmptyKeeps(batch);
      var failed := DeleteObjects(batch);
      if firstErr.None? {
        err := failed;
      }
    }

    /** Midway through DeletePrefix: the keys seen so far have been sent in full batches, but for
        the batch being filled. */
    ghost predicate Progress(before: set<string>, seen: seq<string>, batch: seq<string>, err: Option<Failure>)
      reads this
    {
      && Valid()
      && Concat(sent) + batch == seen
      && (forall i :: 0 <= i < |sent| ==> |sent[i]| == BATCH_SIZE)
      && |batch| < BATCH_SIZE && "" !in batch
      && err == First(results)
      && Removes(before, keys, Concat(sent), err.None?)
    }

    /** What DeletePrefix leaves: every listed key sent once, in order, in batches of 1 to 1000;
        after a failed page only the full batches. */
    ghost predicate Swept(before: set<string>, pages: seq<Page>, err: Option<Failure>)
      reads this
    {
      var listed := NonEmpty(Listed(pages));
      && Valid()
      && (forall i :: 0 <= i < |sent| ==> 1 <= |sent[i]| <= 1000)
      && (if AnyFails(pages)
          then Concat(sent) <= listed && |listed| - |Concat(sent)| < BATCH_SIZE && (forall i :: 0 <= i < |sent| ==> |sent[i]| == BATCH_SIZE)
          else Concat(sent) == listed && (forall i :: 0 <= i < |sent| - 1 ==> |sent[i]| == 1000))
      && err == (if First(results).Some? then First(results) else if AnyFails(pages) then Some(ListFailed) else None)
      && Removes(before, keys, Concat(sent), err.None?)
    }

    /** One key of a page: a full batch is sent. */
    method Add(key: string, batch: seq<string>, firstErr: Option<Failure>, ghost before: set<string>, ghost seen: seq<string>)
      returns (batch': seq<string>, err: Option<Failure>)
      requires Progress(before, seen, batch, firstErr)
      modifies this
      ensures Progress(before, seen + (if key == "" then [] else [key]), batch', err)
    {
      batch', err := batch, firstErr;
      if key == "" {
        assert seen + [] == seen;
        return;
      }
      batch' := batch + [key];
      assert seen + [key] == Concat(sent) + batch';
      if |batch'| >= BATCH_SIZE {
        err := SendBatch(batch', firstErr, before);
        batch' := [];
        assert Concat(sent) + [] == Concat(sent);
      }
    }

    /** Sends a batch: its keys join the ones dealt with. */
    method SendBatch(batch: seq<string>, firstErr: Option<Failure>, ghost before: set<string>)
      returns (err: Option<Failure>)
      requires Valid() && "" !in batch && batch != []
      requires firstErr == First(results) && Removes(before, keys, Concat(sent), firstErr.None?)
      modifies this
      ensures Valid() && sent == old(sent) + [batch] && Concat(sent) == old(Concat(sent)) + batch
      ensures err == First(results) && Removes(before, keys, Concat(sent), err.None?)
    {
      ghost var sent0, results0, keys0 := sent, results, keys;
      err := Flush(batch, firstErr);
      ConcatAppend(sent0, batch);
      FirstAppend(results0, results[|results0|]);
      RemovesStep(before, keys0, keys, Concat(sent0), batch, firstErr.None?, err.None?);
    }

    method AddPage(page: seq<string>, batch: seq<string>, firstErr: Option<Failure>, ghost before: set<string>, ghost seen: seq<string>)
      returns (batch': seq<string>, err: Option<Failure>)
      requires Progress(before, seen, batch, firstErr)
      modifies this
      ensures Progress(before, seen + NonEmpty(page), batch', err)
    {
      batch', err := batch, firstErr;
      assert seen + NonEmpty([]) == seen;
      for i := 0 to |page|
        invariant Progress(before, seen + NonEmpty(page[..i]), batch', err)
      {
        batch', err := Add(page[i], batch', err, before, seen + NonEmpty(page[..i]));
        NonEmptyAppend(page[..i], page[i]);
        assert page[..i + 1] == page[..i] + [page[i]];
        var last := if page[i] == "" then [] else [page[i]];
        assert (seen + NonEmpty(page[..i])) + last == seen + (NonEmpty(page[..i]) + last);
      }
      assert page[..|page|] == page;
    }

    /** DeletePrefix: lists page by page, sends a request for every full batch and for the rest.
        A failing request does not stop it; a failing page does, before the rest is sent. */
    method DeletePrefix(prefix: string, pages: seq<Page>) returns (err: Option<Failure>)
      modifies this
      ensures !GoodPrefix(prefix) ==> err == Some(BadPrefix) && sent == [] && keys == old(keys)
      ensures GoodPrefix(prefix) <==>
        prefix != "" && prefix[|prefix| - 1] == '/' && exists i :: 0 <= i < |prefix| && prefix[i] != '/'
      ensures GoodPrefix(prefix) ==> Swept(old(keys), pages, err)
    {
      sent, results := [], [];
      err := None;
      if !GoodPrefix(prefix) {
        return Some(BadPrefix);
      }
      var batch: seq<string> := [];
      for i := 0 to |pages|
        invariant !AnyFails(pages[..i])
        invariant Progress(old(keys), NonEmpty(Listed(pages[..i])), batch, err)
      {
        if pages[i].PageFailed? {
          ListedStops(pages, i);
          err := if err.None? then Some(ListFailed) else err;
          return;
        }
        batch, err := AddPage(pages[i].keys, batch, err, old(keys), NonEmpty(Listed(pages[..i])));
        assert pages[..i + 1] == pages[..i] + [pages[i]];
        ListedAppend(pages[..i], pages[i]);
        NonEmptyConcat(Listed(pages[..i]), pages[i].keys);
      }
      assert pages[..|pages|] == pages;
      err := FlushRest(batch, err, old(keys), pages);
    }

    method FlushRest(batch: seq<string>, firstErr: Option<Failure>, ghost before: set<string>, ghost pages: seq<Page>)
      returns (err: Option<Failure>)
      requires !AnyFails(pages) && Progress(before, NonEmpty(Listed(pages)), batch, firstErr)
      modifies this
      ensures Swept(before, pages, err)
    {
      err := firstErr;
      if batch != [] {
        err := SendBatch(batch, firstErr, before);
      } else {
        assert Concat(sent) + [] == Concat(sent);
      }
    }

    /** The keys of one page, up to the limit. */
    method TakePage(page: seq<string>, found: seq<string>, max: int) returns (taken: seq<string>, full: bool)
      requires max > 0 ==> |found| < max
      ensures full ==> max > 0 && |taken| == max && exists j :: 0 <= j <= |page| && taken == found + NonEmpty(page[..j])
      ensures !full ==> taken == found + NonEmpty(page) && (max > 0 ==> |taken| < max)
    {
      taken := found;
      for j := 0 to |page|
        invariant taken == found + NonEmpty(page[..j])
        invariant max > 0 ==> |taken| < max
      {
        NonEmptyAppend(page[..j], page[j]);
        assert page[..j + 1] == page[..j] + [page[j]];
        if page[j] != "" {
          taken := taken + [page[j]];
          if max > 0 && |taken| >= max {
            return taken, true;
          }
        }
      }
      assert page[..|page|] == page;
      full := false;
    }

    /** ListObjectsByPrefix: all listed keys, or the first `max` of them when a limit is given. */
    method ListObjectsByPrefix(prefix: string, max: int, pages: seq<Page>)
      returns (err: Option<Failure>, found: seq<string>)
      ensures !GoodPrefix(prefix) ==> err == Some(BadPrefix) && found == []
      ensures err.None? && max <= 0 ==> !AnyFails(pages) && found == NonEmpty(Listed(pages))
      ensures err.None? && max > 0 ==> found <= NonEmpty(Listed(pages)) && |found| <= max
      ensures err.None? && max > 0 && |found| < max ==> found == NonEmpty(Listed(pages)) && !AnyFails(pages)
      ensures GoodPrefix(prefix) && err.Some? ==> err == Some(ListFailed) && AnyFails(pages)
    {
      err, found := None, [];
      if !GoodPrefix(prefix) {
        return Some(BadPrefix), [];
      }
      for i := 0 to |pages|
        invariant !AnyFails(pages[..i]) && found == NonEmpty(Listed(pages[..i]))
        invariant max > 0 ==> |found| < max
      {
        if pages[i].PageFailed? {
          return Some(ListFailed), [];
        }
        var page := pages[i].keys;
        var taken, full := TakePage(page, found, max);
        if full {
          var j :| 0 <= j <= |page| && taken == found + NonEmpty(page[..j]);
          ListedPrefix(pages, i, j);
          found := taken;
          return;
        }
        found := taken;
        assert pages[..i + 1] == pages[..i] + [pages[i]];
        ListedAppend(pages[..i], pages[i]);
        NonEmptyConcat(Listed(pages[..i]), page);
      }
      assert pages[..|pages|] == pages;
    }
  }

  lemma {:induction false} NonEmptyConcat(a: seq<string>, b: seq<string>)
    ensures NonEmpty(a + b) == NonEmpty(a) + NonEmpty(b)
  {
    if b == [] {
      assert a + b == a;
    } else {
      var n := |b| - 1;
      NonEmptyConcat(a, b[..n]);
      assert a + b == (a + b[..n]) + [b[n]];
      NonEmptyAppend(a + b[..n], b[n]);
      assert b == b[..n] + [b[n]];
    }
  }

  /** The keys up to key `j` of page `i` come first in the listing. */
  lemma ListedPrefix(pages: seq<Page>, i: nat, j: nat)
    requires i < |pages| && !AnyFails(pages[..i]) && pages[i].Contents? && j <= |pages[i].keys|
    ensures NonEmpty(Listed(pages[..i])) + NonEmpty(pages[i].keys[..j]) <= NonEmpty(Listed(pages))
  {
    var page := pages[i].keys;
    ListedAppend(pages[..i], pages[i]);
    assert pages[..i + 1] == pages[..i] + [pages[i]];
    assert !AnyFails(pages[..i + 1]) by {
      assert forall n :: 0 <= n < i ==> pages[..i + 1][n] == pages[..i][n];
    }
    var rest := ListedSplits(pages, i + 1);
    assert page == page[..j] + page[j..];
    NonEmptyConcat(page[..j], page[j..]);
    NonEmptyConcat(Listed(pages[..i]), page);
    NonEmptyConcat(Listed(pages[..i + 1]), rest);
  }

  lemma {:induction false} ListedSplits(pages: seq<Page>, i: nat) returns (rest: seq<string>)
    requires i <= |pages| && !AnyFails(pages[..i])
    ensures Listed(pages) == Listed(pages[..i]) + rest
  {
    if i == 0 {
      rest := Listed(pages);
    } else {
      assert !pages[..i][0].PageFailed?;
      assert pages[..i][1..] == pages[1..][..i - 1];
      assert forall j {:trigger pages[1..][..i - 1][j]} :: 0 <= j < i - 1 ==> pages[1..][..i - 1][j] == pages[..i][j + 1];
      rest := ListedSplits(pages[1..], i - 1);
    }
  }

  // ----- what the caller gets -----

  /** The pages list exactly the bucket's keys under the prefix. */
  ghost predicate ListsPrefix(keys: set<string>, prefix: string, pages: seq<Page>) {
    && !AnyFails(pages)
    && (forall k :: k in NonEmpty(Listed(pages)) <==> k in keys && prefix <= k && k != "")
  }

  /** A DeletePrefix without an error removes precisely the keys under the prefix. */
  lemma SweptIsPrecise(b: Bucket, before: set<string>, prefix: string, pages: seq<Page>)
    requires GoodPrefix(prefix) && ListsPrefix(before, prefix, pages) && b.Swept(before, pages, None)
    ensures b.keys == set k | k in before && !(prefix <= k)
  {
  }

  /** Each listed key is in exactly one place of one batch: the batches are a cut of the listing. */
  lemma {:induction false} EachKeyOnce(batches: seq<seq<string>>, i: nat, j: nat) returns (at: nat)
    requires i < |batches| && j < |batches[i]|
    ensures at < |Concat(batches)| && Concat(batches)[at] == batches[i][j]
    ensures at == |Concat(batches[..i])| + j
  {
    var n := |batches| - 1;
    if i == n {
      at := |Concat(batches[..n])| + j;
    } else {
      at := EachKeyOnce(batches[..n], i, j);
      assert batches[..n][..i] == batches[..i];
    }
  }
}
