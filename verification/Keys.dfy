/** The text of object keys. The protocol modules reason about structured keys; here the keys'
    text is shown to determine them, and the two kinds of prefix the programs delete or list by
    to match exactly the keys they are meant for. */
module Keys {
  import opened Model

  /** How identifiers are written: distinct and without slashes, as UUIDs are. */
  ghost predicate UuidText(id: nat -> string) {
    && (forall a, b :: id(a) == id(b) ==> a == b)
    && (forall a :: '/' !in id(a))
  }

  datatype Root = Uploads | Thumbs | HlsRoot

  function RootText(r: Root): string {
    match r
    case Uploads => "uploads"
    case Thumbs => "thumbs"
    case HlsRoot => "hls"
  }

  function RootOf(k: Key): Root {
    match k
    case Raw(_, _) => Uploads
    case Hls(_, _, _) => HlsRoot
    case Thumb(_, _) => Thumbs
  }

  function Render(k: Key, id: nat -> string): string {
    RootText(RootOf(k)) + "/" + (id(k.owner) + "/" + Rest(k, id))
  }

  function Rest(k: Key, id: nat -> string): string {
    match k
    case Raw(_, upload) => id(upload) + "/" + "source.mp4"
    case Hls(_, video, path) => id(video) + "/" + path
    case Thumb(_, video) => id(video) + "/" + "thumb.jpg"
  }

  /** <root>/<user>/, what the reconcile sweep lists by. */
  function UserPrefix(r: Root, u: UserId, id: nat -> string): string {
    RootText(r) + "/" + (id(u) + "/" + "")
  }

  /** hls/<user>/<video>/, what the purge of a tombstone deletes by. */
  function VideoPrefix(p: Prefix, id: nat -> string): string {
    RootText(HlsRoot) + "/" + (id(p.owner) + "/" + (id(p.video) + "/" + ""))
  }

  /** Text up to the first slash is determined by the whole. */
  lemma FirstPart(a: string, x: string, b: string, y: string)
    requires '/' !in a && '/' !in b
    ensures a + "/" + x <= b + "/" + y <==> a == b && x <= y
    ensures a + "/" + x == b + "/" + y <==> a == b && x == y
  {
    var s, t := a + "/" + x, b + "/" + y;
    assert forall j :: 0 <= j < |a| ==> a[j] in a;
    assert forall j :: 0 <= j < |b| ==> b[j] in b;
    assert s[|a|] == '/' && t[|b|] == '/';
    assert (forall j :: 0 <= j < |a| ==> s[j] == a[j]) && (forall j :: 0 <= j < |b| ==> t[j] == b[j]);
    if s <= t {
      assert forall j :: 0 <= j < |s| ==> s[j] == t[j];
      assert |a| == |b|;
      assert a == s[..|a|] == t[..|a|] == b;
      assert x == s[|a| + 1..] && y == t[|a| + 1..];
      assert x <= y;
    }
    if a == b && x <= y {
      assert t == s + y[|x|..];
    }
    if s == t {
      assert s <= t && t <= s;
      assert a == s[..|a|] == t[..|b|] == b;
      assert x == s[|a| + 1..] && y == t[|b| + 1..];
    }
  }

  lemma RootsDiffer(r: Root, r': Root)
    ensures RootText(r) == RootText(r') <==> r == r'
    ensures '/' !in RootText(r)
  {
    assert RootText(Uploads)[0] == 'u' && RootText(Thumbs)[0] == 't' && RootText(HlsRoot)[0] == 'h';
  }

  /** Two keys with the same text are the same key. */
  lemma RenderIsInjective(k: Key, k': Key, id: nat -> string)
    requires UuidText(id)
    ensures Render(k, id) == Render(k', id) <==> k == k'
  {
    RootsDiffer(RootOf(k), RootOf(k'));
    RootsDiffer(RootOf(k'), RootOf(k));
    FirstPart(RootText(RootOf(k)), id(k.owner) + "/" + Rest(k, id), RootText(RootOf(k')), id(k'.owner) + "/" + Rest(k', id));
    FirstPart(id(k.owner), Rest(k, id), id(k'.owner), Rest(k', id));
    match k
    case Raw(_, a) => if k'.Raw? { FirstPart(id(a), "source.mp4", id(k'.upload), "source.mp4"); }
    case Hls(_, a, path) => if k'.Hls? { FirstPart(id(a), path, id(k'.video), k'.path); }
    case Thumb(_, a) => if k'.Thumb? { FirstPart(id(a), "thumb.jpg", id(k'.video), "thumb.jpg"); }
  }

  /** A user prefix matches exactly that user's keys of that root. */
  lemma UserPrefixIsOwnership(r: Root, u: UserId, k: Key, id: nat -> string)
    requires UuidText(id)
    ensures UserPrefix(r, u, id) <= Render(k, id) <==> RootOf(k) == r && k.owner == u
  {
    RootsDiffer(r, RootOf(k));
    RootsDiffer(RootOf(k), r);
    FirstPart(RootText(r), id(u) + "/" + "", RootText(RootOf(k)), id(k.owner) + "/" + Rest(k, id));
    FirstPart(id(u), "", id(k.owner), Rest(k, id));
  }

  /** A video prefix matches exactly the keys under it: never those of a video whose id begins alike. */
  lemma VideoPrefixIsUnder(p: Prefix, k: Key, id: nat -> string)
    requires UuidText(id)
    ensures VideoPrefix(p, id) <= Render(k, id) <==> Under(k, p)
  {
    RootsDiffer(HlsRoot, RootOf(k));
    RootsDiffer(RootOf(k), HlsRoot);
    FirstPart(RootText(HlsRoot), id(p.owner) + "/" + (id(p.video) + "/" + ""), RootText(RootOf(k)), id(k.owner) + "/" + Rest(k, id));
    FirstPart(id(p.owner), id(p.video) + "/" + "", id(k.owner), Rest(k, id));
    if k.Hls? {
      FirstPart(id(p.video), "", id(k.video), k.path);
    }
  }

  lemma Joined(a: string, b: string, c: string, d: string)
    ensures a + "/" + (b + "/" + (c + "/" + d)) == a + "/" + b + "/" + c + "/" + d
  {
  }

  /** The keys as they are written. */
  lemma KeyTexts(u: UserId, v: VideoId, n: nat, path: string, id: nat -> string)
    ensures Render(Raw(u, n), id) == "uploads" + "/" + id(u) + "/" + id(n) + "/" + "source.mp4"
    ensures Render(Hls(u, v, path), id) == "hls" + "/" + id(u) + "/" + id(v) + "/" + path
    ensures Render(Thumb(u, v), id) == "thumbs" + "/" + id(u) + "/" + id(v) + "/" + "thumb.jpg"
  {
    Joined("uploads", id(u), id(n), "source.mp4");
    Joined("hls", id(u), id(v), path);
    Joined("thumbs", id(u), id(v), "thumb.jpg");
  }
}
