/** SQL wildcard escaping: a search pattern built from the escaped query matches exactly the
    strings that contain the query, up to the case folding of ILIKE. */
module Wildcards {
  import opened Model

  // ----- escapeSQLWildcards -----

  /** strings.ReplaceAll for a one-character old string. */
  function ReplaceAll(s: string, from: char, to: string): string {
    if s == "" then "" else (if s[0] == from then to else [s[0]]) + ReplaceAll(s[1..], from, to)
  }

  /** The three passes, in their order. */
  function EscapeSQLWildcards(s: string): string {
    ReplaceAll(ReplaceAll(ReplaceAll(s, '\\', "\\\\"), '%', "\\%"), '_', "\\_")
  }

  predicate Special(c: char) {
    c == '\\' || c == '%' || c == '_'
  }

  function EscapeChar(c: char): string {
    if Special(c) then ['\\', c] else [c]
  }

  function EscapeEach(s: string): string {
    if s == "" then "" else EscapeChar(s[0]) + EscapeEach(s[1..])
  }

  lemma {:induction false} ReplaceConcat(a: string, b: string, from: char, to: string)
    ensures ReplaceAll(a + b, from, to) == ReplaceAll(a, from, to) + ReplaceAll(b, from, to)
  {
    if a == "" {
      assert a + b == b;
    } else {
      ReplaceConcat(a[1..], b, from, to);
      assert (a + b)[0] == a[0] && (a + b)[1..] == a[1..] + b;
      var head, x, y := if a[0] == from then to else [a[0]], ReplaceAll(a[1..], from, to), ReplaceAll(b, from, to);
      assert ReplaceAll(a + b, from, to) == head + (x + y);
      assert head + (x + y) == (head + x) + y;
    }
  }

  /** One character through the three passes. */
  lemma EscapeOne(c: char)
    ensures ReplaceAll(ReplaceAll(ReplaceAll([c], '\\', "\\\\"), '%', "\\%"), '_', "\\_") == EscapeChar(c)
  {
    Single(c, '\\', "\\\\");
    Single(c, '%', "\\%");
    Single(c, '_', "\\_");
    Pair('\\', '\\', '%', "\\%");
    Pair('\\', '\\', '_', "\\_");
    Pair('\\', '%', '_', "\\_");
  }

  lemma Single(c: char, from: char, to: string)
    ensures ReplaceAll([c], from, to) == if c == from then to else [c]
  {
    assert ([c])[1..] == "";
  }

  lemma Pair(a: char, b: char, from: char, to: string)
    requires a != from && b != from
    ensures ReplaceAll([a, b], from, to) == [a, b]
  {
    assert [a, b] == [a] + [b];
    ReplaceConcat([a], [b], from, to);
    Single(a, from, to);
    Single(b, from, to);
  }

  /** The three passes do no more than escape each character once. */
  lemma {:induction false} PassesAreOneMap(s: string)
    ensures EscapeSQLWildcards(s) == EscapeEach(s)
  {
    if s != "" {
      var c, rest := [s[0]], s[1..];
      assert s == c + rest;
      ReplaceConcat(c, rest, '\\', "\\\\");
      var c1, r1 := ReplaceAll(c, '\\', "\\\\"), ReplaceAll(rest, '\\', "\\\\");
      ReplaceConcat(c1, r1, '%', "\\%");
      var c2, r2 := ReplaceAll(c1, '%', "\\%"), ReplaceAll(r1, '%', "\\%");
      ReplaceConcat(c2, r2, '_', "\\_");
      EscapeOne(s[0]);
      PassesAreOneMap(rest);
    }
  }

  /** Why the backslash comes first: escaped last, it would escape the escapes. */
  lemma BackslashLastWouldDoubleEscape()
    ensures ReplaceAll(ReplaceAll("%", '%', "\\%"), '\\', "\\\\") == "\\\\%"
    ensures !Like("%", "\\\\%")
  {
    Single('%', '%', "\\%");
    assert "\\%" == ['\\'] + ['%'];
    ReplaceConcat(['\\'], ['%'], '\\', "\\\\");
    Single('\\', '\\', "\\\\");
    Single('%', '\\', "\\\\");
    assert "\\\\%"[1..] == "\\%" && "\\\\%"[2..] == "%";
  }

  // ----- LIKE -----

  /** PostgreSQL's LIKE, section 9.7.1 of its manual: % matches any string, _ any character, and a
      backslash takes the next character literally. A pattern ending in a lone backslash matches nothing. */
  predicate Like(s: string, p: string)
    decreases |p|, |s|
  {
    if p == "" then s == ""
    else if p[0] == '%' then Like(s, p[1..]) || (s != "" && Like(s[1..], p))
    else if p[0] == '\\' then |p| > 1 && s != "" && s[0] == p[1] && Like(s[1..], p[2..])
    else s != "" && (p[0] == '_' || s[0] == p[0]) && Like(s[1..], p[1..])
  }

  predicate OccursAt(s: string, q: string, i: int) {
    0 <= i <= |s| - |q| && s[i..i + |q|] == q
  }

  ghost predicate Contains(s: string, q: string) {
    exists i :: OccursAt(s, q, i)
  }

  /** Everything matches %. */
  lemma {:induction false} PercentMatchesAll(s: string)
    ensures Like(s, "%")
  {
    assert "%"[1..] == "";
    if s != "" {
      PercentMatchesAll(s[1..]);
    }
  }

  /** An escaped character matches itself and nothing else. */
  lemma EscapedCharIsLiteral(s: string, c: char, p: string)
    ensures Like(s, EscapeChar(c) + p) <==> s != "" && s[0] == c && Like(s[1..], p)
  {
    var pattern := EscapeChar(c) + p;
    if Special(c) {
      assert pattern[0] == '\\' && pattern[1] == c && pattern[2..] == p;
    } else {
      assert pattern[0] == c && pattern[1..] == p;
    }
  }

  lemma PrefixByHead(q: string, s: string)
    requires q != "" && s != ""
    ensures q <= s <==> s[0] == q[0] && q[1..] <= s[1..]
    ensures q <= s ==> s[|q|..] == s[1..][|q[1..]|..]
  {
    if s[0] == q[0] && q[1..] <= s[1..] {
      assert q == [q[0]] + q[1..] && s == [s[0]] + s[1..];
    }
  }

  /** An escaped query matches itself literally, then the rest of the pattern goes on. */
  lemma {:induction false} EscapedIsLiteral(s: string, q: string, p: string)
    ensures Like(s, EscapeEach(q) + p) <==> q <= s && Like(s[|q|..], p)
  {
    if q == "" {
      assert EscapeEach(q) + p == p && s[0..] == s;
    } else {
      var rest := EscapeEach(q[1..]) + p;
      assert EscapeEach(q) + p == EscapeChar(q[0]) + rest;
      EscapedCharIsLiteral(s, q[0], rest);
      if s != "" {
        EscapedIsLiteral(s[1..], q[1..], p);
        PrefixByHead(q, s);
      }
    }
  }

  /** A leading % lets the rest of the pattern match any suffix. */
  lemma {:induction false} PercentSearches(s: string, p: string)
    ensures Like(s, ['%'] + p) <==> exists i :: 0 <= i <= |s| && Like(s[i..], p)
  {
    assert (['%'] + p)[1..] == p;
    assert s[0..] == s;
    if s == "" {
      assert Like(s, ['%'] + p) <==> Like(s[0..], p);
    } else {
      PercentSearches(s[1..], p);
      if i :| 0 <= i <= |s[1..]| && Like(s[1..][i..], p) {
        assert s[1..][i..] == s[i + 1..];
      }
      if i :| 0 < i <= |s| && Like(s[i..], p) {
        assert s[1..][i - 1..] == s[i..];
      }
    }
  }

  /** The pattern the search queries build: '%' || escaped || '%'. */
  function Pattern(q: string): string {
    ['%'] + (EscapeSQLWildcards(q) + "%")
  }

  /** The theorem: the pattern of `q` matches exactly the strings that contain `q`. */
  lemma LikeIsSubstring(s: string, q: string)
    ensures Like(s, Pattern(q)) <==> Contains(s, q)
  {
    PassesAreOneMap(q);
    PercentSearches(s, EscapeEach(q) + "%");
    var p := EscapeEach(q) + "%";
    if i :| 0 <= i <= |s| && Like(s[i..], p) {
      SuffixMatches(s, q, i);
      assert OccursAt(s, q, i);
    }
    if i :| OccursAt(s, q, i) {
      SuffixMatches(s, q, i);
      assert Like(s[i..], p);
    }
  }

  lemma SuffixMatches(s: string, q: string, i: nat)
    requires i <= |s|
    ensures Like(s[i..], EscapeEach(q) + "%") <==> OccursAt(s, q, i)
  {
    var t := s[i..];
    EscapedIsLiteral(t, q, "%");
    if |q| <= |t| {
      PercentMatchesAll(t[|q|..]);
      assert t[..|q|] == s[i..i + |q|];
    }
  }

  /** Why the query is escaped: as it is, an underscore would find any character and a percent sign any text. */
  lemma UnescapedFindsMore(c: char, text: string)
    requires c != '_' && '%' !in text
    ensures Like([c], ['%'] + ("_" + "%")) && !Like([c], Pattern("_"))
    ensures Like(text, ['%'] + ("%" + "%")) && !Like(text, Pattern("%"))
  {
    PercentSearches([c], "_%");
    assert Like([c][0..], "_%") by {
      assert [c][0..] == [c] && [c][1..] == "" && "_%"[1..] == "%";
      PercentMatchesAll("");
    }
    assert "_" + "%" == "_%" && "%" + "%" == "%%";
    PercentMatchesAll(text);
    PercentSearches(text, "%");
    PercentSearches(text, "%%");
    assert text[0..] == text && "%%" == ['%'] + "%";
    LikeIsSubstring([c], "_");
    LikeIsSubstring(text, "%");
    assert [c][0..1] == [c] && [c] != "_";
    forall i ensures !OccursAt(text, "%", i) {
      if 0 <= i < |text| {
        assert text[i..i + 1][0] == text[i] && text[i] in text;
      }
    }
  }

  // ----- ILIKE -----

  /** A case folding: it leaves the three special characters and makes no other into one. */
  ghost predicate Folding(fold: char -> char) {
    forall c :: Special(c) || Special(fold(c)) ==> fold(c) == c
  }

  function Fold(s: string, fold: char -> char): string {
    if s == "" then "" else [fold(s[0])] + Fold(s[1..], fold)
  }

  /** ILIKE folds both sides and compares with LIKE. */
  predicate ILike(s: string, p: string, fold: char -> char) {
    Like(Fold(s, fold), Fold(p, fold))
  }

  lemma {:induction false} FoldConcat(a: string, b: string, fold: char -> char)
    ensures Fold(a + b, fold) == Fold(a, fold) + Fold(b, fold)
  {
    if a == "" {
      assert a + b == b;
    } else {
      FoldConcat(a[1..], b, fold);
      assert (a + b)[0] == a[0] && (a + b)[1..] == a[1..] + b;
      var head, x, y := [fold(a[0])], Fold(a[1..], fold), Fold(b, fold);
      assert Fold(a + b, fold) == head + (x + y);
      assert head + (x + y) == (head + x) + y;
    }
  }

  /** Escaping and folding commute. */
  lemma {:induction false} FoldEscape(q: string, fold: char -> char)
    requires Folding(fold)
    ensures Fold(EscapeEach(q), fold) == EscapeEach(Fold(q, fold))
  {
    if q != "" {
      FoldEscape(q[1..], fold);
      FoldConcat(EscapeChar(q[0]), EscapeEach(q[1..]), fold);
      assert Fold(EscapeChar(q[0]), fold) == EscapeChar(fold(q[0])) by {
        FoldShort(q[0], fold);
      }
      assert Fold(q, fold)[1..] == Fold(q[1..], fold);
    }
  }

  lemma FoldShort(c: char, fold: char -> char)
    ensures Fold([c], fold) == [fold(c)]
    ensures Fold(['\\', c], fold) == [fold('\\'), fold(c)]
  {
    assert ([c])[1..] == "" && (['\\', c])[1..] == [c];
  }

  /** The theorem for the queries as they are: ILIKE with the escaped query finds exactly the
      strings that contain it up to folding. */
  lemma ILikeIsFoldedSubstring(s: string, q: string, fold: char -> char)
    requires Folding(fold)
    ensures ILike(s, Pattern(q), fold) <==> Contains(Fold(s, fold), Fold(q, fold))
  {
    PassesAreOneMap(q);
    PassesAreOneMap(Fold(q, fold));
    FoldEscape(q, fold);
    FoldShort('%', fold);
    assert Special('%');
    FoldConcat(['%'], EscapeEach(q) + "%", fold);
    FoldConcat(EscapeEach(q), "%", fold);
    assert Fold(Pattern(q), fold) == Pattern(Fold(q, fold));
    LikeIsSubstring(Fold(s, fold), Fold(q, fold));
  }
}
