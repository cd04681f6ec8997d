/** The HLS master playlist: written by the worker, rewritten by the gateway line by line so that
    every variant is fetched through the API with a token. */
module Playlists {
  import opened Model
  import opened Encoding
  import opened MediaTokens

  datatype Variant = Variant(dir: string, resolution: string, bandwidth: nat)

  const NL := "\n"

  // ----- lines -----

  function Unlines(lines: seq<string>): string {
    if lines == [] then "" else lines[0] + (NL + Unlines(lines[1..]))
  }

  /** The scanner cuts at line feeds and drops one carriage return before each; what follows the
      last line feed is a line if it is not empty. */
  function DropReturn(line: string): string {
    if line != "" && line[|line| - 1] == '\r' then line[..|line| - 1] else line
  }

  function RawLines(body: string): seq<string>
    decreases |body|
  {
    if body == "" then []
    else if Cut(body, '\n').None? then [body]
    else
      CutShrinks(body, '\n');
      [Cut(body, '\n').value.0] + RawLines(Cut(body, '\n').value.1)
  }

  lemma {:induction false} CutShrinks(s: string, sep: char)
    ensures Cut(s, sep).Some? ==> s == Cut(s, sep).value.0 + [sep] + Cut(s, sep).value.1
  {
    if s != "" && s[0] != sep {
      CutShrinks(s[1..], sep);
      assert s == [s[0]] + s[1..];
    }
  }

  const MAX_LINE := 0x100000

  /** What the scanner's buffer can hold. */
  predicate Short(lines: seq<string>) {
    forall i :: 0 <= i < |lines| ==> |lines[i]| < MAX_LINE
  }

  predicate CleanLine(line: string) {
    '\n' !in line && (line != "" ==> line[|line| - 1] != '\r')
  }

  lemma {:induction false} LinesInverse(lines: seq<string>)
    requires forall i :: 0 <= i < |lines| ==> CleanLine(lines[i])
    ensures RawLines(Unlines(lines)) == lines
  {
    if lines != [] {
      LinesInverse(lines[1..]);
      FirstLine(lines[0], Unlines(lines[1..]));
    }
  }

  lemma FirstLine(line: string, rest: string)
    requires '\n' !in line
    ensures RawLines(line + (NL + rest)) == [line] + RawLines(rest)
  {
    assert line + (NL + rest) == line + ['\n'] + rest;
    CutAtFirst(line, '\n', rest);
  }

  // ----- writing -----

  function TagLine(v: Variant): string {
    "#EXT-X-STREAM-INF:BANDWIDTH=" + Decimal(v.bandwidth) + ",RESOLUTION=" + v.resolution
  }

  function UriLine(prefix: string, v: Variant): string {
    prefix + "/" + (v.dir + "/" + INDEX)
  }

  function VariantLines(prefix: string, variants: seq<Variant>): seq<string> {
    if variants == [] then [] else [TagLine(variants[0]), UriLine(prefix, variants[0])] + VariantLines(prefix, variants[1..])
  }

  function MasterLines(prefix: string, variants: seq<Variant>): seq<string> {
    ["#EXTM3U", "#EXT-X-VERSION:3"] + VariantLines(prefix, variants)
  }

  lemma {:induction false} UnlinesConcat(a: seq<string>, b: seq<string>)
    ensures Unlines(a + b) == Unlines(a) + Unlines(b)
  {
    if a == [] {
      assert a + b == b;
    } else {
      UnlinesConcat(a[1..], b);
      assert (a + b)[0] == a[0] && (a + b)[1..] == a[1..] + b;
      var x, y := Unlines(a[1..]), Unlines(b);
      assert Unlines(a + b) == a[0] + (NL + (x + y));
      assert a[0] + (NL + (x + y)) == (a[0] + (NL + x)) + y;
    }
  }

  lemma UnlinesOne(line: string)
    ensures Unlines([line]) == line + NL
  {
    assert ([line])[1..] == [];
  }

  lemma {:induction false} VariantLinesAppend(prefix: string, variants: seq<Variant>, v: Variant)
    ensures VariantLines(prefix, variants + [v]) == VariantLines(prefix, variants) + [TagLine(v), UriLine(prefix, v)]
  {
    if variants == [] {
      assert ([v])[1..] == [];
    } else {
      VariantLinesAppend(prefix, variants[1..], v);
      assert (variants + [v])[1..] == variants[1..] + [v];
    }
  }

  /** The string builder of writeMasterPlaylist. */
  method WriteMasterPlaylist(prefix: string, variants: seq<Variant>) returns (body: string)
    ensures body == Unlines(MasterLines(prefix, variants))
  {
    body := "#EXTM3U\n";
    body := body + "#EXT-X-VERSION:3\n";
    UnlinesOne("#EXTM3U");
    UnlinesOne("#EXT-X-VERSION:3");
    UnlinesConcat(["#EXTM3U"], ["#EXT-X-VERSION:3"]);
    ghost var head := ["#EXTM3U"] + ["#EXT-X-VERSION:3"];
    assert MasterLines(prefix, []) == head;
    for i := 0 to |variants|
      invariant body == Unlines(MasterLines(prefix, variants[..i]))
    {
      var v := variants[i];
      VariantLinesAppend(prefix, variants[..i], v);
      assert variants[..i + 1] == variants[..i] + [v];
      ghost var more := [TagLine(v)] + [UriLine(prefix, v)];
      assert MasterLines(prefix, variants[..i + 1]) == MasterLines(prefix, variants[..i]) + more;
      UnlinesConcat(MasterLines(prefix, variants[..i]), more);
      UnlinesConcat([TagLine(v)], [UriLine(prefix, v)]);
      UnlinesOne(TagLine(v));
      UnlinesOne(UriLine(prefix, v));
      body := body + (TagLine(v) + NL + (UriLine(prefix, v) + NL));
    }
    assert variants[..|variants|] == variants;
  }

  // ----- rewriting -----

  predicate Space(c: char) {
    c == ' ' || ('\t' <= c <= '\r') || c as int == 0x85 || c as int == 0xA0
  }

  function TrimLeft(s: string): string {
    if s != "" && Space(s[0]) then TrimLeft(s[1..]) else s
  }

  function TrimRight(s: string): string {
    if s != "" && Space(s[|s| - 1]) then TrimRight(s[..|s| - 1]) else s
  }

  function TrimSpace(s: string): string {
    TrimRight(TrimLeft(s))
  }

  predicate Absolute(uri: string) {
    "http://" <= uri || "https://" <= uri
  }

  /** strings.Split(s, "/"). */
  function Segments(s: string): (parts: seq<string>)
    ensures |parts| >= 1
    decreases |s|
  {
    if Cut(s, '/').None? then [s]
    else
      CutShrinks(s, '/');
      [Cut(s, '/').value.0] + Segments(Cut(s, '/').value.1)
  }

  function TrimSlash(s: string): string {
    if s != "" && s[|s| - 1] == '/' then s[..|s| - 1] else s
  }

  /** The second-to-last path segment. */
  function VariantOf(uri: string): string {
    var parts := Segments(TrimSlash(uri));
    if |parts| >= 2 then parts[|parts| - 2] else ""
  }

  function Url(base: string, video: string, variant: string, token: string): string {
    base + ("/api/videos/" + video + "/playlist.m3u8?variant=" + variant + "&token=" + token)
  }

  /** Tags, blank lines and absolute URIs pass; a relative URI becomes a request for its variant. */
  predicate Passes(line: string) {
    var trimmed := TrimSpace(line);
    trimmed == "" || trimmed[0] == '#' || Absolute(trimmed) || VariantOf(trimmed) == ""
  }

  function RewriteLine(line: string, base: string, video: string, token: string): string {
    if Passes(line) then line else Url(base, video, VariantOf(TrimSpace(line)), token)
  }

  function RewriteLines(lines: seq<string>, base: string, video: string, token: string): seq<string> {
    seq(|lines|, i requires 0 <= i < |lines| => RewriteLine(DropReturn(lines[i]), base, video, token))
  }

  datatype Rewritten = Rewritten(body: string) | Refused | TooLong

  /** What RewriteMasterPlaylist makes of a body. */
  function Rewrite(body: string, base: string, video: string, token: string): Rewritten {
    if !Short(RawLines(body)) then TooLong
    else Rewritten.Rewritten(Unlines(RewriteLines(RawLines(body), base, video, token)))
  }

  /** What the loop has written after `i` lines. */
  function Written(lines: seq<string>, i: nat, base: string, video: string, token: string): string
    requires i <= |lines|
  {
    Unlines(RewriteLines(lines[..i], base, video, token))
  }

  lemma OneMoreLine(lines: seq<string>, i: nat, base: string, video: string, token: string, out: string)
    requires i < |lines| && out == Written(lines, i, base, video, token)
    ensures Written(lines, i + 1, base, video, token) == out + (RewriteLine(DropReturn(lines[i]), base, video, token) + NL)
  {
    var done, line := RewriteLines(lines[..i], base, video, token), RewriteLine(DropReturn(lines[i]), base, video, token);
    assert RewriteLines(lines[..i + 1], base, video, token) == done + [line];
    UnlinesConcat(done, [line]);
    UnlinesOne(line);
  }

  /** The gateway's loop over the scanner. */
  method RewriteMasterPlaylist(mac: Mac, body: string, base: string, video: string, secret: string, ttl: int, now: int)
    returns (r: Rewritten)
    requires Bytes(mac(secret, Payload(video, FormatInt(now + ttl))))
    ensures r.Refused? <==> base == "" || secret == "" || video == "" || ttl <= 0
    ensures !r.Refused? ==> r == Rewrite(body, base, video, SignMediaToken(mac, video, secret, now + ttl))
  {
    if base == "" || secret == "" || video == "" || ttl <= 0 {
      return Refused;
    }
    var token := SignMediaToken(mac, video, secret, now + ttl);
    var ok, out := RewriteAll(RawLines(body), base, video, token);
    r := if ok then Rewritten.Rewritten(out) else TooLong;
  }

  method RewriteOne(line: string, base: string, video: string, token: string) returns (rewritten: string)
    ensures rewritten == RewriteLine(line, base, video, token)
  {
    if Passes(line) {
      rewritten := line;
    } else {
      rewritten := Url(base, video, VariantOf(TrimSpace(line)), token);
    }
  }

  method RewriteAll(lines: seq<string>, base: string, video: string, token: string) returns (ok: bool, out: string)
    ensures ok <==> Short(lines)
    ensures ok ==> out == Unlines(RewriteLines(lines, base, video, token))
  {
    out := "";
    for i := 0 to |lines|
      invariant out == Written(lines, i, base, video, token)
      invariant Short(lines[..i])
    {
      if |lines[i]| >= MAX_LINE {
        return false, out;
      }
      var line := RewriteOne(DropReturn(lines[i]), base, video, token);
      OneMoreLine(lines, i, base, video, token, out);
      out := out + (line + NL);
    }
    assert lines[..|lines|] == lines;
    ok := true;
  }

  // ----- lemmas about text -----

  lemma {:induction false} TrimRightKeeps(p: string, s: string)
    requires p != "" && p <= s && !Space(p[|p| - 1])
    ensures p <= TrimRight(s)
  {
    if Space(s[|s| - 1]) {
      assert |p| < |s|;
      TrimRightKeeps(p, s[..|s| - 1]);
    }
  }

  /** A line whose first and last characters are no spaces is its own trimming. */
  lemma NothingToTrim(s: string)
    requires s != "" && !Space(s[0]) && !Space(s[|s| - 1])
    ensures TrimSpace(s) == s
  {
  }

  lemma TrimKeepsStart(p: string, s: string)
    requires p != "" && p <= s && !Space(p[0]) && !Space(p[|p| - 1])
    ensures p <= TrimSpace(s)
  {
    assert s[0] == p[0];
    TrimRightKeeps(p, s);
  }

  lemma {:induction false} SegmentsConcat(a: string, rest: string)
    ensures Segments(a + ("/" + rest)) == Segments(a) + Segments(rest)
    decreases |a|
  {
    var s := a + ("/" + rest);
    if Cut(a, '/').None? {
      NoCut(a, '/');
      CutAtFirst(a, '/', rest);
      assert s == a + ['/'] + rest;
    } else {
      CutShrinks(a, '/');
      CutIsFirst(a, '/');
      var (p, q) := Cut(a, '/').value;
      SegmentsConcat(q, rest);
      CutAtFirst(p, '/', q + ("/" + rest));
      assert s == p + ['/'] + (q + ("/" + rest));
    }
  }

  lemma {:induction false} NoCut(s: string, sep: char)
    ensures Cut(s, sep).None? <==> sep !in s
  {
    if s != "" && s[0] != sep {
      NoCut(s[1..], sep);
      assert s == [s[0]] + s[1..];
    }
  }

  lemma {:induction false} CutIsFirst(s: string, sep: char)
    requires Cut(s, sep).Some?
    ensures sep !in Cut(s, sep).value.0
  {
    if s[0] != sep {
      CutIsFirst(s[1..], sep);
    }
  }

  /** The last two segments of a path. */
  lemma LastTwo(a: string, b: string, c: string)
    requires '/' !in b && '/' !in c
    ensures
      var parts := Segments(a + ("/" + (b + ("/" + c))));
      |parts| >= 2 && parts[|parts| - 2] == b && parts[|parts| - 1] == c
  {
    SegmentsConcat(a, b + ("/" + c));
    SegmentsConcat(b, c);
    NoCut(b, '/');
    NoCut(c, '/');
  }

  // ----- what the rewriting of a master is -----

  /** What the worker writes with: a key prefix under hls/ and plain directory names. */
  predicate Proper(prefix: string, variants: seq<Variant>) {
    && "hls/" <= prefix && '\n' !in prefix
    && forall i :: 0 <= i < |variants| ==> ProperVariant(variants[i])
  }

  predicate ProperVariant(v: Variant) {
    && v.dir != "" && '/' !in v.dir && '\n' !in v.dir && '&' !in v.dir
    && v.resolution != "" && CleanLine(v.resolution)
  }

  /** The lines a player gets: every tag as it was, every URI a request for its variant. */
  function PlayerLines(variants: seq<Variant>, base: string, video: string, token: string): seq<string> {
    if variants == [] then []
    else [TagLine(variants[0]), Url(base, video, variants[0].dir, token)] + PlayerLines(variants[1..], base, video, token)
  }

  function PlayerMaster(variants: seq<Variant>, base: string, video: string, token: string): seq<string> {
    ["#EXTM3U", "#EXT-X-VERSION:3"] + PlayerLines(variants, base, video, token)
  }

  lemma UriIsRelative(prefix: string, v: Variant)
    requires "hls/" <= prefix
    ensures TrimSpace(UriLine(prefix, v)) == UriLine(prefix, v)
    ensures UriLine(prefix, v)[0] != '#' && !Absolute(UriLine(prefix, v))
  {
    var line := UriLine(prefix, v);
    assert line[0] == 'h' && line[1] == 'l' && line[|line| - 1] == INDEX[|INDEX| - 1] == '8';
    NothingToTrim(line);
    assert "http://"[1] == 't' && "https://"[1] == 't';
  }

  lemma UriNamesVariant(prefix: string, v: Variant)
    requires ProperVariant(v)
    ensures VariantOf(UriLine(prefix, v)) == v.dir
  {
    var line := UriLine(prefix, v);
    assert line == prefix + ("/" + (v.dir + ("/" + INDEX)));
    assert line[|line| - 1] == INDEX[|INDEX| - 1] == '8';
    LastTwo(prefix, v.dir, INDEX);
  }

  lemma UriBecomesRequest(prefix: string, v: Variant, base: string, video: string, token: string)
    requires "hls/" <= prefix && ProperVariant(v)
    ensures RewriteLine(UriLine(prefix, v), base, video, token) == Url(base, video, v.dir, token)
  {
    UriIsRelative(prefix, v);
    UriNamesVariant(prefix, v);
  }

  lemma TagPasses(line: string, base: string, video: string, token: string)
    requires line != "" && line[0] == '#'
    ensures RewriteLine(line, base, video, token) == line
  {
    assert "#" <= line;
    TrimKeepsStart("#", line);
  }

  lemma {:induction false} VariantsRewritten(prefix: string, variants: seq<Variant>, base: string, video: string, token: string)
    requires Proper(prefix, variants)
    ensures RewriteLines(VariantLines(prefix, variants), base, video, token) == PlayerLines(variants, base, video, token)
  {
    if variants != [] {
      var v := variants[0];
      VariantsRewritten(prefix, variants[1..], base, video, token);
      TagPasses(TagLine(v), base, video, token);
      UriBecomesRequest(prefix, v, base, video, token);
      TagIsClean(v);
      UriIsClean(prefix, v);
      var head := [TagLine(v), UriLine(prefix, v)];
      RewriteConcat(head, VariantLines(prefix, variants[1..]), base, video, token);
      assert RewriteLines(head, base, video, token) == [TagLine(v), Url(base, video, v.dir, token)];
    }
  }

  lemma RewriteConcat(a: seq<string>, b: seq<string>, base: string, video: string, token: string)
    ensures RewriteLines(a + b, base, video, token) == RewriteLines(a, base, video, token) + RewriteLines(b, base, video, token)
  {
  }

  lemma TagIsClean(v: Variant)
    requires ProperVariant(v)
    ensures CleanLine(TagLine(v)) && DropReturn(TagLine(v)) == TagLine(v)
  {
    var line := TagLine(v);
    assert Digits(Decimal(v.bandwidth));
    assert line[|line| - 1] == v.resolution[|v.resolution| - 1];
  }

  lemma UriIsClean(prefix: string, v: Variant)
    requires '\n' !in prefix && ProperVariant(v)
    ensures CleanLine(UriLine(prefix, v)) && DropReturn(UriLine(prefix, v)) == UriLine(prefix, v)
  {
    var line := UriLine(prefix, v);
    assert line[|line| - 1] == INDEX[|INDEX| - 1] == '8';
  }

  lemma {:induction false} VariantsAreClean(prefix: string, variants: seq<Variant>)
    requires Proper(prefix, variants)
    ensures forall i :: 0 <= i < |VariantLines(prefix, variants)| ==> CleanLine(VariantLines(prefix, variants)[i])
  {
    if variants != [] {
      TagIsClean(variants[0]);
      UriIsClean(prefix, variants[0]);
      VariantsAreClean(prefix, variants[1..]);
    }
  }

  /** The theorem: rewriting a master the worker wrote keeps every tag line and the order of the
      lines, and turns each URI into one with exactly that variant's directory and the token. */
  lemma MasterRewritten(prefix: string, variants: seq<Variant>, base: string, video: string, token: string)
    requires Proper(prefix, variants) && Short(MasterLines(prefix, variants))
    ensures Rewrite(Unlines(MasterLines(prefix, variants)), base, video, token)
      == Rewritten.Rewritten(Unlines(PlayerMaster(variants, base, video, token)))
  {
    var lines := MasterLines(prefix, variants);
    VariantsAreClean(prefix, variants);
    var head := ["#EXTM3U", "#EXT-X-VERSION:3"];
    forall i | 0 <= i < |lines| ensures CleanLine(lines[i]) {
      if i >= 2 {
        assert lines[i] == VariantLines(prefix, variants)[i - 2];
      }
    }
    LinesInverse(lines);
    VariantsRewritten(prefix, variants, base, video, token);
    RewriteConcat(head, VariantLines(prefix, variants), base, video, token);
    TagPasses("#EXTM3U", base, video, token);
    TagPasses("#EXT-X-VERSION:3", base, video, token);
    assert RewriteLines(head, base, video, token) == head;
  }

  /** The token in every rewritten URI opens this video until the expiry, and no other. */
  lemma EveryRequestIsSigned(mac: Mac, variants: seq<Variant>, base: string, video: string, other: string,
                             secret: string, expiry: int, now: int, i: nat)
    requires Ideal(mac) && Int64(expiry) && i < |variants|
    ensures
      var token := SignMediaToken(mac, video, secret, expiry);
      && 2 * i + 3 < |PlayerMaster(variants, base, video, token)|
      && PlayerMaster(variants, base, video, token)[2 * i + 2] == TagLine(variants[i])
      && PlayerMaster(variants, base, video, token)[2 * i + 3] == Url(base, video, variants[i].dir, token)
      && (VerifyMediaToken(mac, token, other, secret, now) == Valid <==> other == video && now <= expiry)
  {
    TokenVerifiesIff(mac, video, other, secret, expiry, now);
    LinesInOrder(variants, base, video, SignMediaToken(mac, video, secret, expiry), i);
  }

  lemma {:induction false} LinesInOrder(variants: seq<Variant>, base: string, video: string, token: string, i: nat)
    requires i < |variants|
    ensures
      var lines := PlayerLines(variants, base, video, token);
      && |lines| == 2 * |variants| && lines[2 * i] == TagLine(variants[i])
      && lines[2 * i + 1] == Url(base, video, variants[i].dir, token)
  {
    if |variants| > 1 {
      LinesInOrder(variants[1..], base, video, token, if i > 0 then i - 1 else 0);
    }
  }

  // ----- rewriting again -----

  /** A base URL without a blank or a tag sign at its start, and an id as UUIDs are written. */
  predicate Plain(base: string, video: string) {
    && base != "" && !Space(base[0]) && base[0] != '#' && '\n' !in base
    && video != "" && '/' !in video && '\n' !in video && '&' !in video
  }

  predicate Usable(base: string, video: string, token: string) {
    Plain(base, video) && token != "" && CleanLine(token) && '/' !in token && !Space(token[|token| - 1])
  }

  /** Every signed token is fit for a URL. */
  lemma SignedTokenIsUsable(mac: Mac, base: string, video: string, secret: string, expiry: int)
    requires Ideal(mac) && Plain(base, video)
    ensures Usable(base, video, SignMediaToken(mac, video, secret, expiry))
  {
    var tag := mac(secret, Payload(video, FormatInt(expiry)));
    RawIsBytes(expiry, tag);
    var raw := FormatInt(expiry) + ['.'] + HexEncode(tag);
    EncodedHasNoBreaks(raw);
    EncodedIsSextets(raw);
    assert forall c: char :: SextetValue(c).Some? ==> !Space(c) && c != '/' && c != '\n' && c != '\r';
  }

  /** What the rewriter emits behind this base URL is absolute: also behind a base like "http:/". */
  predicate EmitsAbsolute(base: string) {
    Absolute(base + "/api/videos/")
  }

  lemma UrlIsAbsolute(base: string, video: string, variant: string, token: string)
    requires base != ""
    ensures Absolute(Url(base, video, variant, token)) <==> EmitsAbsolute(base)
  {
    var head := base + "/api/videos/";
    var url := Url(base, video, variant, token);
    assert url == head + (video + "/playlist.m3u8?variant=" + variant + "&token=" + token);
    assert url[..7] == head[..7] && url[..8] == head[..8];
  }

  lemma UrlIsTrim(base: string, video: string, variant: string, token: string)
    requires Usable(base, video, token)
    ensures TrimSpace(Url(base, video, variant, token)) == Url(base, video, variant, token)
    ensures Url(base, video, variant, token)[0] != '#'
  {
    var url := Url(base, video, variant, token);
    assert url[0] == base[0] && url[|url| - 1] == token[|token| - 1];
    NothingToTrim(url);
  }

  function Query(variant: string, token: string): string {
    "playlist.m3u8?variant=" + variant + "&token=" + token
  }

  lemma UrlParts(base: string, video: string, variant: string, token: string)
    ensures Url(base, video, variant, token) == (base + "/api/videos") + ("/" + (video + ("/" + Query(variant, token))))
  {
  }

  lemma UrlNamesVideo(base: string, video: string, variant: string, token: string)
    requires Usable(base, video, token) && '/' !in variant
    ensures VariantOf(Url(base, video, variant, token)) == video
  {
    var url := Url(base, video, variant, token);
    assert url[|url| - 1] == token[|token| - 1] && token[|token| - 1] in token;
    UrlParts(base, video, variant, token);
    LastTwo(base + "/api/videos", video, Query(variant, token));
  }

  lemma UrlNamesOneVariant(base: string, video: string, a: string, b: string, token: string, token': string)
    requires '&' !in a && '&' !in b && a != b
    ensures Url(base, video, a, token) != Url(base, video, b, token')
  {
    var head := base + ("/api/videos/" + video + "/playlist.m3u8?variant=");
    var u, w := Url(base, video, a, token), Url(base, video, b, token');
    assert u == head + (a + ['&'] + ("token=" + token));
    assert w == head + (b + ['&'] + ("token=" + token'));
    CutAtFirst(a, '&', "token=" + token);
    CutAtFirst(b, '&', "token=" + token');
    assert u[|head|..] == a + ['&'] + ("token=" + token);
    assert w[|head|..] == b + ['&'] + ("token=" + token');
  }

  /** A rewritten URI passes if it is absolute; else it is taken for a variant named like the video. */
  lemma UrlRewritten(base: string, video: string, variant: string, token: string, token': string)
    requires Usable(base, video, token) && '/' !in variant
    ensures RewriteLine(Url(base, video, variant, token), base, video, token')
      == if EmitsAbsolute(base) then Url(base, video, variant, token) else Url(base, video, video, token')
  {
    UrlIsTrim(base, video, variant, token);
    UrlIsAbsolute(base, video, variant, token);
    UrlNamesVideo(base, video, variant, token);
  }

  lemma UrlIsClean(base: string, video: string, variant: string, token: string)
    requires Usable(base, video, token) && '\n' !in variant
    ensures CleanLine(Url(base, video, variant, token))
    ensures DropReturn(Url(base, video, variant, token)) == Url(base, video, variant, token)
  {
    var url := Url(base, video, variant, token);
    assert url[|url| - 1] == token[|token| - 1];
  }

  /** Every variant goes by the name of the video. */
  function Misnamed(variants: seq<Variant>, video: string): seq<Variant> {
    seq(|variants|, i requires 0 <= i < |variants| => variants[i].(dir := video))
  }

  lemma VariantRewritten(v: Variant, base: string, video: string, token: string, token': string)
    requires Usable(base, video, token) && ProperVariant(v)
    ensures RewriteLines([TagLine(v), Url(base, video, v.dir, token)], base, video, token')
      == [TagLine(v), if EmitsAbsolute(base) then Url(base, video, v.dir, token) else Url(base, video, video, token')]
  {
    TagIsClean(v);
    UrlIsClean(base, video, v.dir, token);
    TagPasses(TagLine(v), base, video, token');
    UrlRewritten(base, video, v.dir, token, token');
  }

  lemma {:induction false} LinesStay(variants: seq<Variant>, base: string, video: string, token: string, token': string)
    requires Usable(base, video, token) && EmitsAbsolute(base) && forall i :: 0 <= i < |variants| ==>
      ProperVariant(variants[i])
    ensures RewriteLines(PlayerLines(variants, base, video, token), base, video, token') == PlayerLines(variants, base, video, token)
  {
    if variants != [] {
      var v := variants[0];
      LinesStay(variants[1..], base, video, token, token');
      VariantRewritten(v, base, video, token, token');
      RewriteConcat([TagLine(v), Url(base, video, v.dir, token)], PlayerLines(variants[1..], base, video, token), base, video, token');
    }
  }

  lemma {:induction false} LinesAreMisnamed(variants: seq<Variant>, base: string, video: string, token: string, token': string)
    requires Usable(base, video, token) && !EmitsAbsolute(base) && forall i :: 0 <= i < |variants| ==>
      ProperVariant(variants[i])
    ensures RewriteLines(PlayerLines(variants, base, video, token), base, video, token')
      == PlayerLines(Misnamed(variants, video), base, video, token')
  {
    if variants != [] {
      var v := variants[0];
      LinesAreMisnamed(variants[1..], base, video, token, token');
      assert Misnamed(variants, video)[1..] == Misnamed(variants[1..], video);
      VariantRewritten(v, base, video, token, token');
      RewriteConcat([TagLine(v), Url(base, video, v.dir, token)], PlayerLines(variants[1..], base, video, token), base, video, token');
    }
  }

  lemma {:induction false} PlayerLinesAreClean(variants: seq<Variant>, base: string, video: string, token: string)
    requires Usable(base, video, token)
    requires forall i :: 0 <= i < |variants| ==> ProperVariant(variants[i])
    ensures forall i :: 0 <= i < |PlayerLines(variants, base, video, token)| ==> CleanLine(PlayerLines(variants, base, video, token)[i])
  {
    if variants != [] {
      TagIsClean(variants[0]);
      UrlIsClean(base, video, variants[0].dir, token);
      PlayerLinesAreClean(variants[1..], base, video, token);
    }
  }

  /** A player's master is read back line by line. */
  lemma MasterInverse(variants: seq<Variant>, base: string, video: string, token: string)
    requires Usable(base, video, token) && forall i :: 0 <= i < |variants| ==> ProperVariant(variants[i])
    ensures RawLines(Unlines(PlayerMaster(variants, base, video, token))) == PlayerMaster(variants, base, video, token)
  {
    var lines, rest := PlayerMaster(variants, base, video, token), PlayerLines(variants, base, video, token);
    PlayerLinesAreClean(variants, base, video, token);
    forall i | 0 <= i < |lines| ensures CleanLine(lines[i]) {
      if i >= 2 {
        assert lines[i] == rest[i - 2];
      }
    }
    LinesInverse(lines);
  }

  /** The rewriting of what was rewritten. */
  lemma MasterRewrittenAgain(variants: seq<Variant>, base: string, video: string, token: string, token': string)
    requires Usable(base, video, token) && Short(PlayerMaster(variants, base, video, token))
    requires forall i :: 0 <= i < |variants| ==> ProperVariant(variants[i])
    ensures Rewrite(Unlines(PlayerMaster(variants, base, video, token)), base, video, token')
      == Rewritten.Rewritten(Unlines(
           if EmitsAbsolute(base) then PlayerMaster(variants, base, video, token)
           else PlayerMaster(Misnamed(variants, video), base, video, token')))
  {
    var head := ["#EXTM3U", "#EXT-X-VERSION:3"];
    MasterInverse(variants, base, video, token);
    if EmitsAbsolute(base) {
      LinesStay(variants, base, video, token, token');
    } else {
      LinesAreMisnamed(variants, base, video, token, token');
    }
    RewriteConcat(head, PlayerLines(variants, base, video, token), base, video, token');
    TagPasses("#EXTM3U", base, video, token');
    TagPasses("#EXT-X-VERSION:3", base, video, token');
    assert RewriteLines(head, base, video, token') == head;
  }

  lemma MisnamedDiffers(variants: seq<Variant>, base: string, video: string, token: string, token': string)
    requires Usable(base, video, token) && Usable(base, video, token') && variants != []
    requires forall i :: 0 <= i < |variants| ==> ProperVariant(variants[i]) && variants[i].dir != video
    ensures Unlines(PlayerMaster(Misnamed(variants, video), base, video, token')) != Unlines(PlayerMaster(variants, base, video, token))
  {
    MasterInverse(variants, base, video, token);
    MasterInverse(Misnamed(variants, video), base, video, token');
    UrlNamesOneVariant(base, video, video, variants[0].dir, token', token);
    assert PlayerMaster(variants, base, video, token)[3] == Url(base, video, variants[0].dir, token);
    assert PlayerMaster(Misnamed(variants, video), base, video, token')[3] == Url(base, video, video, token');
  }

  /** The theorem: rewriting a player's master again, even with a fresh token, changes nothing if and
      only if the URIs emitted behind this base URL are absolute. */
  lemma RewritingAgainChangesNothingIff(mac: Mac, variants: seq<Variant>, base: string, video: string,
                                        secret: string, expiry: int, expiry': int)
    requires Ideal(mac) && Plain(base, video) && variants != []
    requires forall i :: 0 <= i < |variants| ==> ProperVariant(variants[i]) && variants[i].dir != video
    requires Short(PlayerMaster(variants, base, video, SignMediaToken(mac, video, secret, expiry)))
    ensures
      var master := Unlines(PlayerMaster(variants, base, video, SignMediaToken(mac, video, secret, expiry)));
      Rewrite(master, base, video, SignMediaToken(mac, video, secret, expiry')) == Rewritten.Rewritten(master)
      <==> EmitsAbsolute(base)
  {
    var token, token' := SignMediaToken(mac, video, secret, expiry), SignMediaToken(mac, video, secret, expiry');
    SignedTokenIsUsable(mac, base, video, secret, expiry);
    SignedTokenIsUsable(mac, base, video, secret, expiry');
    MasterRewrittenAgain(variants, base, video, token, token');
    MisnamedDiffers(variants, base, video, token, token');
  }

  // ----- what the lines say to those who read them -----

  /** The value of the first `name=` among parts separated by `sep`: a query or an attribute list. */
  function Param(list: string, sep: char, name: string): Option<string>
    decreases |list|
  {
    var cut := Cut(list, sep);
    var pair := if cut.Some? then cut.value.0 else list;
    if name + "=" <= pair then Some(pair[|name| + 1..])
    else if cut.None? then None
    else
      CutShrinks(list, sep);
      Param(cut.value.1, sep, name)
  }

  lemma FirstParam(name: string, value: string, sep: char, rest: string)
    requires sep !in name + "=" + value
    ensures Param(name + "=" + value + [sep] + rest, sep, name) == Some(value)
  {
    CutAtFirst(name + "=" + value, sep, rest);
  }

  lemma LastParam(name: string, value: string, sep: char)
    requires sep !in name + "=" + value
    ensures Param(name + "=" + value, sep, name) == Some(value)
  {
    NoCut(name + "=" + value, sep);
  }

  lemma NextParam(pair: string, sep: char, rest: string, name: string)
    requires sep !in pair && !(name + "=" <= pair)
    ensures Param(pair + [sep] + rest, sep, name) == Param(rest, sep, name)
  {
    CutAtFirst(pair, sep, rest);
  }

  lemma TwoParams(name: string, value: string, name': string, value': string, sep: char)
    requires sep !in name + "=" + value && sep !in name' + "=" + value' && name != "" && name' != "" && name[0] != name'[0]
    ensures
      var list := (name + "=" + value) + [sep] + (name' + "=" + value');
      Param(list, sep, name) == Some(value) && Param(list, sep, name') == Some(value')
  {
    FirstParam(name, value, sep, name' + "=" + value');
    assert (name + "=" + value)[0] != (name' + "=")[0];
    NextParam(name + "=" + value, sep, name' + "=" + value', name');
    LastParam(name', value', sep);
  }

  /** A player's request names this video, exactly this variant, and carries exactly this token. */
  lemma UrlReadsBack(base: string, video: string, variant: string, token: string)
    requires '?' !in base && '?' !in video && '&' !in variant && '&' !in token
    ensures
      var url := Cut(Url(base, video, variant, token), '?');
      && url.Some? && url.value.0 == base + "/api/videos/" + video + "/playlist.m3u8"
      && Param(url.value.1, '&', "variant") == Some(variant) && Param(url.value.1, '&', "token") == Some(token)
  {
    var path, query := base + "/api/videos/" + video + "/playlist.m3u8", "variant=" + variant + "&token=" + token;
    assert Url(base, video, variant, token) == path + ['?'] + query;
    CutAtFirst(path, '?', query);
    assert query == ("variant" + "=" + variant) + ['&'] + ("token" + "=" + token);
    TwoParams("variant", variant, "token", token, '&');
  }

  function Attributes(bits: string, resolution: string): string {
    ("BANDWIDTH" + "=" + bits) + [','] + ("RESOLUTION" + "=" + resolution)
  }

  lemma AttributesReadBack(bits: string, resolution: string)
    requires Digits(bits) && ',' !in resolution
    ensures Param(Attributes(bits, resolution), ',', "BANDWIDTH") == Some(bits)
    ensures Param(Attributes(bits, resolution), ',', "RESOLUTION") == Some(resolution)
  {
    assert ',' !in bits;
    TwoParams("BANDWIDTH", bits, "RESOLUTION", resolution, ',');
  }

  lemma TagSplits(v: Variant)
    ensures Cut(TagLine(v), ':') == Some(("#EXT-X-STREAM-INF", Attributes(Decimal(v.bandwidth), v.resolution)))
  {
    var list := Attributes(Decimal(v.bandwidth), v.resolution);
    assert TagLine(v) == "#EXT-X-STREAM-INF" + [':'] + list;
    CutAtFirst("#EXT-X-STREAM-INF", ':', list);
  }

  /** The tag of a variant tells its bandwidth and its resolution. */
  lemma TagReadsBack(v: Variant)
    requires ',' !in v.resolution && v.bandwidth < INT64
    ensures
      var tag := Cut(TagLine(v), ':');
      && tag.Some? && tag.value.0 == "#EXT-X-STREAM-INF"
      && Param(tag.value.1, ',', "BANDWIDTH").Some? && ParseInt(Param(tag.value.1, ',', "BANDWIDTH").value) == Some(v.bandwidth)
      && Param(tag.value.1, ',', "RESOLUTION") == Some(v.resolution)
  {
    TagSplits(v);
    AttributesReadBack(Decimal(v.bandwidth), v.resolution);
    ParseDecimal(v.bandwidth);
  }

  /** Each URI of a rewritten master, read as the gateway reads it, asks for its variant of the video with a
      token that opens this video until the expiry. */
  lemma EveryRequestReadsBack(mac: Mac, v: Variant, base: string, video: string, secret: string, expiry: int, now: int)
    requires Ideal(mac) && Int64(expiry) && ProperVariant(v) && '?' !in base && '?' !in video
    ensures
      var url := Cut(Url(base, video, v.dir, SignMediaToken(mac, video, secret, expiry)), '?');
      && url.Some? && Param(url.value.1, '&', "variant") == Some(v.dir) && Param(url.value.1, '&', "token").Some?
      && forall other ::
           VerifyMediaToken(mac, Param(url.value.1, '&', "token").value, other, secret, now) == Valid <==> other == video && now <= expiry
  {
    var token := SignMediaToken(mac, video, secret, expiry);
    TokenHasNoAmpersand(mac, video, secret, expiry);
    UrlReadsBack(base, video, v.dir, token);
    forall other ensures VerifyMediaToken(mac, token, other, secret, now) == Valid <==> other == video && now <= expiry {
      TokenVerifiesIff(mac, video, other, secret, expiry, now);
    }
  }

  lemma TokenHasNoAmpersand(mac: Mac, video: string, secret: string, expiry: int)
    requires Ideal(mac)
    ensures '&' !in SignMediaToken(mac, video, secret, expiry)
  {
    var tag := mac(secret, Payload(video, FormatInt(expiry)));
    RawIsBytes(expiry, tag);
    EncodedIsSextets(FormatInt(expiry) + ['.'] + HexEncode(tag));
    assert SextetValue('&').None?;
  }

  /** transcodeVariants. */
  const DEPLOYED := [Variant(SD, "640x480", 800_000), Variant(HD, "1280x720", 1_500_000)]

  lemma TwoVariants(prefix: string, v: Variant, w: Variant)
    ensures MasterLines(prefix, [v, w])
      == ["#EXTM3U", "#EXT-X-VERSION:3", TagLine(v), UriLine(prefix, v), TagLine(w), UriLine(prefix, w)]
  {
    assert [v, w][1..] == [w] && [w][1..] == [];
    assert VariantLines(prefix, [w]) == [TagLine(w), UriLine(prefix, w)];
  }

  /** The master the worker writes, in full. */
  lemma DeployedMaster(prefix: string)
    ensures Unlines(MasterLines(prefix, DEPLOYED))
      == "#EXTM3U" + NL + "#EXT-X-VERSION:3" + NL
      + ("#EXT-X-STREAM-INF:BANDWIDTH=" + "800000" + ",RESOLUTION=" + "640x480" + NL + (prefix + "/480p/index.m3u8") + NL)
      + ("#EXT-X-STREAM-INF:BANDWIDTH=" + "1500000" + ",RESOLUTION=" + "1280x720" + NL + (prefix + "/720p/index.m3u8") + NL)
  {
    Bandwidths();
    var sd, hd := DEPLOYED[0], DEPLOYED[1];
    TwoVariants(prefix, sd, hd);
    assert UriLine(prefix, sd) == prefix + "/480p/index.m3u8" && UriLine(prefix, hd) == prefix + "/720p/index.m3u8";
    UnlinesSix("#EXTM3U", "#EXT-X-VERSION:3", TagLine(sd), UriLine(prefix, sd), TagLine(hd), UriLine(prefix, hd));
  }

  lemma Bandwidths()
    ensures Decimal(800_000) == "800000" && Decimal(1_500_000) == "1500000"
  {
    assert Decimal(8) == "8" && Decimal(80) == "80" && Decimal(800) == "800" && Decimal(8000) == "8000" && Decimal(80_000) == "80000";
    assert Decimal(1) == "1" && Decimal(15) == "15" && Decimal(150) == "150" && Decimal(1500) == "1500" && Decimal(15_000) == "15000";
    assert Decimal(150_000) == "150000";
  }

  lemma UnlinesSix(a: string, b: string, c: string, d: string, e: string, f: string)
    ensures Unlines([a, b, c, d, e, f]) == a + NL + b + NL + (c + NL + d + NL) + (e + NL + f + NL)
  {
    UnlinesOne(f);
    assert Unlines([e, f]) == e + (NL + Unlines([f]));
    assert Unlines([d, e, f]) == d + (NL + Unlines([e, f]));
    assert Unlines([c, d, e, f]) == c + (NL + Unlines([d, e, f]));
    assert Unlines([b, c, d, e, f]) == b + (NL + Unlines([c, d, e, f]));
    assert Unlines([a, b, c, d, e, f]) == a + (NL + Unlines([b, c, d, e, f]));
  }
}
