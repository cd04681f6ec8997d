/** The protocol deletes and lists structured keys; the R2 client works on their text. Here what
    the client does to the text is what the protocol's steps do to the keys. */
module Rendering {
  import opened Model
  import opened Lifecycle
  import opened Keys
  import opened ObjectStore

  function Texts(keys: set<Key>, id: nat -> string): set<string> {
    set k | k in keys :: Render(k, id)
  }

  function Lines(keys: seq<Key>, id: nat -> string): seq<string> {
    seq(|keys|, i requires 0 <= i < |keys| => Render(keys[i], id))
  }

  /** Among the rendered keys a text stands for one key. */
  lemma TextsKeepKeys(keys: set<Key>, k: Key, id: nat -> string)
    requires UuidText(id)
    ensures Render(k, id) in Texts(keys, id) <==> k in keys
  {
    if Render(k, id) in Texts(keys, id) {
      var k' :| k' in keys && Render(k', id) == Render(k, id);
      RenderIsInjective(k, k', id);
    }
  }

  lemma PrefixesAreGood(p: Prefix, r: Root, u: UserId, id: nat -> string)
    ensures GoodPrefix(VideoPrefix(p, id)) && GoodPrefix(UserPrefix(r, u, id))
  {
    var video, user := VideoPrefix(p, id), UserPrefix(r, u, id);
    assert video[0] == 'h' && video[|video| - 1] == '/';
    assert user[0] == RootText(r)[0] && user[|user| - 1] == '/';
  }

  /** DeletePrefix on hls/<owner>/<video>/, with no error, is the protocol's purge of the prefix. */
  lemma DeletePrefixPurges(b: Bucket, s: State, row: Row, p: Prefix, pages: seq<Page>, id: nat -> string)
    requires UuidText(id) && row.hlsPrefix == Some(p)
    requires ListsPrefix(Texts(s.store.keys, id), VideoPrefix(p, id), pages)
    requires b.Swept(Texts(s.store.keys, id), pages, None)
    ensures b.keys == Texts(s.store.keys - PrefixKeys(s, row), id)
  {
    PrefixesAreGood(p, HlsRoot, 0, id);
    SweptIsPrecise(b, Texts(s.store.keys, id), VideoPrefix(p, id), pages);
    forall k ensures VideoPrefix(p, id) <= Render(k, id) <==> Under(k, p) {
      VideoPrefixIsUnder(p, k, id);
    }
  }

  lemma RenderingsAreNotEmpty(keys: seq<Key>, id: nat -> string)
    ensures NonEmpty(Lines(keys, id)) == Lines(keys, id)
  {
    forall i | 0 <= i < |keys| ensures Lines(keys, id)[i] != "" {
      assert '/' in Render(keys[i], id);
    }
    NonEmptyKeeps(Lines(keys, id));
  }

  lemma ListedIffFound(found: seq<string>, listed: seq<Key>, k: Key, id: nat -> string)
    requires UuidText(id) && |listed| == |found| && forall i :: 0 <= i < |listed| ==> Render(listed[i], id) == found[i]
    ensures k in listed <==> Render(k, id) in found
  {
    if Render(k, id) in found {
      var i :| 0 <= i < |found| && found[i] == Render(k, id);
      RenderIsInjective(listed[i], k, id);
    }
  }

  /** One DeleteObjects request, by its contract: with no error all the payload's keys are gone and
      no others; with an error some of them are. */
  lemma DeleteObjectsDeletes(keys: set<Key>, payload: seq<Key>, after: set<string>, clean: bool, id: nat -> string)
    returns (gone: set<Key>)
    requires UuidText(id) && Removes(Texts(keys, id), after, NonEmpty(Lines(payload, id)), clean)
    ensures gone <= KeySet(payload) && after == Texts(keys - gone, id)
    ensures clean ==> after == Texts(keys - KeySet(payload), id)
  {
    RenderingsAreNotEmpty(payload, id);
    gone := set k | k in keys && Render(k, id) !in after;
    forall k | k in keys ensures (k in gone ==> k in payload) && (clean ==> (k in payload ==> k in gone)) {
      ListedIffFound(Lines(payload, id), payload, k, id);
    }
    assert clean ==> keys - gone == keys - KeySet(payload);
    forall x | x in after ensures x in Texts(keys - gone, id) {
      var k :| k in keys && Render(k, id) == x;
      assert k in keys - gone;
    }
  }

  ghost function KeyFor(keys: set<Key>, x: string, id: nat -> string): (k: Key)
    requires x in Texts(keys, id)
    ensures k in keys && Render(k, id) == x
  {
    var k :| k in keys && Render(k, id) == x;
    k
  }

  /** What ListObjectsByPrefix found under <root>/<user>/. */
  ghost predicate Finds(keys: set<Key>, r: Root, u: UserId, found: seq<string>, id: nat -> string) {
    forall x :: x in found <==> x in Texts(keys, id) && UserPrefix(r, u, id) <= x
  }

  lemma OwnedIffFound(k: Key, u: UserId, id: nat -> string)
    requires UuidText(id)
    ensures k.owner == u <==>
      || UserPrefix(Uploads, u, id) <= Render(k, id) || UserPrefix(Thumbs, u, id) <= Render(k, id)
      || UserPrefix(HlsRoot, u, id) <= Render(k, id)
  {
    UserPrefixIsOwnership(Uploads, u, k, id);
    UserPrefixIsOwnership(Thumbs, u, k, id);
    UserPrefixIsOwnership(HlsRoot, u, k, id);
  }

  lemma FoundIffOwned(keys: set<Key>, u: UserId, uploads: seq<string>, thumbs: seq<string>, hls: seq<string>, k: Key, id: nat -> string)
    requires UuidText(id) && k in keys
    requires Finds(keys, Uploads, u, uploads, id)
    requires Finds(keys, Thumbs, u, thumbs, id) && Finds(keys, HlsRoot, u, hls, id)
    ensures Render(k, id) in uploads + thumbs + hls <==> k.owner == u
  {
    TextsKeepKeys(keys, k, id);
    OwnedIffFound(k, u, id);
  }

  /** The keys behind a list of texts. */
  ghost function KeysFor(keys: set<Key>, found: seq<string>, id: nat -> string): (r: seq<Key>)
    requires forall i :: 0 <= i < |found| ==> found[i] in Texts(keys, id)
    ensures |r| == |found| && forall i :: 0 <= i < |r| ==> r[i] in keys && Render(r[i], id) == found[i]
  {
    seq(|found|, i requires 0 <= i < |found| => KeyFor(keys, found[i], id))
  }

  /** The three listings of a sweep put together are a listing of the keys the user owns. */
  lemma ListingsAreOwned(keys: set<Key>, u: UserId, uploads: seq<string>, thumbs: seq<string>, hls: seq<string>, id: nat -> string)
    returns (listed: seq<Key>)
    requires UuidText(id)
    requires Finds(keys, Uploads, u, uploads, id)
    requires Finds(keys, Thumbs, u, thumbs, id) && Finds(keys, HlsRoot, u, hls, id)
    ensures ListsKeysOf(keys, u, listed) && Lines(listed, id) == uploads + thumbs + hls
  {
    var found := uploads + thumbs + hls;
    assert forall i :: 0 <= i < |found| ==> found[i] in uploads || found[i] in thumbs || found[i] in hls;
    listed := KeysFor(keys, found, id);
    forall k | k in keys ensures k in listed <==> k.owner == u {
      FoundIffOwned(keys, u, uploads, thumbs, hls, k, id);
      ListedIffFound(found, listed, k, id);
    }
  }
}
