/** The text encodings that cursors and tokens are made of: unpadded URL-safe base64, decimal
    numbers and hexadecimal digits, each with its decoder. Bytes are characters below 256. */
module Encoding {
  import opened Model

  predicate Bytes(s: string) {
    forall i :: 0 <= i < |s| ==> s[i] as int < 256
  }

  // ----- base64, section 5 of RFC 4648 -----

  function Sextet(n: nat): char
    requires n < 64
  {
    if n < 26 then (n + 'A' as int) as char
    else if n < 52 then (n - 26 + 'a' as int) as char
    else if n < 62 then (n - 52 + '0' as int) as char
    else if n == 62 then '-' else '_'
  }

  function SextetValue(c: char): (v: Option<nat>)
    ensures v.Some? ==> v.value < 64
  {
    if 'A' <= c <= 'Z' then Some(c as int - 'A' as int)
    else if 'a' <= c <= 'z' then Some(c as int - 'a' as int + 26)
    else if '0' <= c <= '9' then Some(c as int - '0' as int + 52)
    else if c == '-' then Some(62)
    else if c == '_' then Some(63)
    else None
  }

  lemma SextetInverse(n: nat)
    requires n < 64
    ensures SextetValue(Sextet(n)) == Some(n)
    ensures Sextet(n) != '\n' && Sextet(n) != '\r'
  {
  }

  function EncodeBase64(b: string): string
    requires Bytes(b)
    decreases |b|
  {
    if b == "" then ""
    else
      var x := b[0] as int;
      if |b| == 1 then [Sextet(x / 4), Sextet(x % 4 * 16)]
      else
        var y := b[1] as int;
        if |b| == 2 then [Sextet(x / 4), Sextet(x % 4 * 16 + y / 16), Sextet(y % 16 * 4)]
        else
          var z := b[2] as int;
          [Sextet(x / 4), Sextet(x % 4 * 16 + y / 16), Sextet(y % 16 * 4 + z / 64), Sextet(z % 64)] + EncodeBase64(b[3..])
  }

  /** The decoder skips line breaks. */
  function StripBreaks(t: string): string {
    if t == "" then "" else (if t[0] == '\n' || t[0] == '\r' then "" else [t[0]]) + StripBreaks(t[1..])
  }

  /** Without padding the last group has two, three or four digits; spare bits are ignored. */
  function DecodeGroups(t: string): Option<string>
    decreases |t|
  {
    if t == "" then Some("")
    else if |t| == 1 || SextetValue(t[0]).None? || SextetValue(t[1]).None? then None
    else
      var a, b := SextetValue(t[0]).value, SextetValue(t[1]).value;
      var x := (a * 4 + b / 16) as char;
      if |t| == 2 then Some([x])
      else if SextetValue(t[2]).None? then None
      else
        var c := SextetValue(t[2]).value;
        var y := (b % 16 * 16 + c / 4) as char;
        if |t| == 3 then Some([x, y])
        else if SextetValue(t[3]).None? then None
        else
          var d := SextetValue(t[3]).value;
          var z := (c % 4 * 64 + d) as char;
          var rest := DecodeGroups(t[4..]);
          if rest.None? then None else Some([x, y, z] + rest.value)
  }

  function DecodeBase64(t: string): Option<string> {
    DecodeGroups(StripBreaks(t))
  }

  predicate NoBreaks(t: string) {
    forall i :: 0 <= i < |t| ==> t[i] != '\n' && t[i] != '\r'
  }

  lemma {:induction false} StripNothing(t: string)
    requires NoBreaks(t)
    ensures StripBreaks(t) == t
  {
    if t != "" {
      StripNothing(t[1..]);
    }
  }

  lemma {:induction false} EncodedHasNoBreaks(b: string)
    requires Bytes(b)
    ensures NoBreaks(EncodeBase64(b)) && (b != "" ==> EncodeBase64(b) != "")
    decreases |b|
  {
    if |b| >= 3 {
      EncodedHasNoBreaks(b[3..]);
    }
  }

  /** Encoded text is letters, digits, dashes and underscores. */
  lemma {:induction false} EncodedIsSextets(b: string)
    requires Bytes(b)
    ensures forall i :: 0 <= i < |EncodeBase64(b)| ==> SextetValue(EncodeBase64(b)[i]).Some?
    decreases |b|
  {
    if |b| >= 3 {
      EncodedIsSextets(b[3..]);
    }
  }

  lemma ThreeBytes(x: nat, y: nat, z: nat)
    requires x < 256 && y < 256 && z < 256
    ensures
      var a, b, c, d := x / 4, x % 4 * 16 + y / 16, y % 16 * 4 + z / 64, z % 64;
      && a < 64 && b < 64 && c < 64 && d < 64
      && a * 4 + b / 16 == x && b % 16 * 16 + c / 4 == y && c % 4 * 64 + d == z
  {
  }

  /** Four digits stand for three bytes. */
  predicate Packs(a: nat, b: nat, c: nat, d: nat, x: char, y: char, z: char) {
    && a < 64 && b < 64 && c < 64 && d < 64
    && a * 4 + b / 16 == x as int && b % 16 * 16 + c / 4 == y as int && c % 4 * 64 + d == z as int
  }

  lemma EncodeFour(b: string) returns (p: nat, q: nat, r: nat, s: nat)
    requires Bytes(b) && |b| >= 3
    ensures Packs(p, q, r, s, b[0], b[1], b[2])
    ensures EncodeBase64(b) == [Sextet(p), Sextet(q), Sextet(r), Sextet(s)] + EncodeBase64(b[3..])
  {
    var x, y, z := b[0] as int, b[1] as int, b[2] as int;
    ThreeBytes(x, y, z);
    p, q, r, s := x / 4, x % 4 * 16 + y / 16, y % 16 * 4 + z / 64, z % 64;
  }

  lemma EncodeThree(b: string) returns (p: nat, q: nat, r: nat)
    requires Bytes(b) && |b| == 2
    ensures Packs(p, q, r, 0, b[0], b[1], 0 as char)
    ensures EncodeBase64(b) == [Sextet(p), Sextet(q), Sextet(r)]
  {
    var x, y := b[0] as int, b[1] as int;
    ThreeBytes(x, y, 0);
    p, q, r := x / 4, x % 4 * 16 + y / 16, y % 16 * 4;
  }

  lemma EncodeTwo(b: string) returns (p: nat, q: nat)
    requires Bytes(b) && |b| == 1
    ensures Packs(p, q, 0, 0, b[0], 0 as char, 0 as char)
    ensures EncodeBase64(b) == [Sextet(p), Sextet(q)]
  {
    var x := b[0] as int;
    ThreeBytes(x, 0, 0);
    p, q := x / 4, x % 4 * 16;
  }

  lemma DecodeFour(a: nat, b: nat, c: nat, d: nat, x: char, y: char, z: char, t: string)
    requires Packs(a, b, c, d, x, y, z) && DecodeGroups(t).Some?
    ensures DecodeGroups([Sextet(a), Sextet(b), Sextet(c), Sextet(d)] + t) == Some([x, y, z] + DecodeGroups(t).value)
  {
    SextetInverse(a);
    SextetInverse(b);
    SextetInverse(c);
    SextetInverse(d);
    var all := [Sextet(a), Sextet(b), Sextet(c), Sextet(d)] + t;
    assert all[4..] == t;
  }

  lemma DecodeThree(a: nat, b: nat, c: nat, x: char, y: char)
    requires Packs(a, b, c, 0, x, y, 0 as char)
    ensures DecodeGroups([Sextet(a), Sextet(b), Sextet(c)]) == Some([x, y])
  {
    SextetInverse(a);
    SextetInverse(b);
    SextetInverse(c);
  }

  lemma DecodeTwo(a: nat, b: nat, x: char)
    requires Packs(a, b, 0, 0, x, 0 as char, 0 as char)
    ensures DecodeGroups([Sextet(a), Sextet(b)]) == Some([x])
  {
    SextetInverse(a);
    SextetInverse(b);
  }

  /** The last group, of two or three digits. */
  lemma OneByteLeft(b: string)
    requires Bytes(b) && |b| == 1
    ensures DecodeGroups(EncodeBase64(b)) == Some(b)
  {
    var p, q := EncodeTwo(b);
    DecodeTwo(p, q, b[0]);
    assert b == [b[0]];
  }

  lemma TwoBytesLeft(b: string)
    requires Bytes(b) && |b| == 2
    ensures DecodeGroups(EncodeBase64(b)) == Some(b)
  {
    var p, q, r := EncodeThree(b);
    DecodeThree(p, q, r, b[0], b[1]);
    assert b == [b[0], b[1]];
  }

  lemma FullGroup(b: string)
    requires Bytes(b) && |b| >= 3 && DecodeGroups(EncodeBase64(b[3..])).Some?
    ensures DecodeGroups(EncodeBase64(b)) == Some([b[0], b[1], b[2]] + DecodeGroups(EncodeBase64(b[3..])).value)
  {
    var p, q, r, s := EncodeFour(b);
    DecodeFour(p, q, r, s, b[0], b[1], b[2], EncodeBase64(b[3..]));
  }

  lemma {:induction false} GroupsInverse(b: string)
    requires Bytes(b)
    ensures DecodeGroups(EncodeBase64(b)) == Some(b)
    decreases |b|
  {
    if |b| >= 3 {
      GroupsInverse(b[3..]);
      FullGroup(b);
      assert b == [b[0], b[1], b[2]] + b[3..];
    } else if |b| == 2 {
      TwoBytesLeft(b);
    } else if |b| == 1 {
      OneByteLeft(b);
    }
  }

  /** Decoding inverts encoding. */
  lemma Base64Inverse(b: string)
    requires Bytes(b)
    ensures DecodeBase64(EncodeBase64(b)) == Some(b)
  {
    EncodedHasNoBreaks(b);
    StripNothing(EncodeBase64(b));
    GroupsInverse(b);
  }

  // ----- decimal -----

  predicate Digit(c: char) {
    '0' <= c <= '9'
  }

  function DigitOf(n: nat): char
    requires n < 10
  {
    (n + '0' as int) as char
  }

  function DigitValue(c: char): nat
    requires Digit(c)
  {
    c as int - '0' as int
  }

  predicate Digits(s: string) {
    forall i :: 0 <= i < |s| ==> Digit(s[i])
  }

  function Value(s: string): nat
    requires Digits(s)
  {
    if s == "" then 0 else Value(s[..|s| - 1]) * 10 + DigitValue(s[|s| - 1])
  }

  function Decimal(n: nat): (s: string)
    ensures s != "" && Digits(s)
  {
    if n < 10 then [DigitOf(n)] else Decimal(n / 10) + [DigitOf(n % 10)]
  }

  lemma {:induction false} DecimalInverse(n: nat)
    ensures Value(Decimal(n)) == n
  {
    if n >= 10 {
      DecimalInverse(n / 10);
      var s := Decimal(n);
      assert s[..|s| - 1] == Decimal(n / 10);
    } else {
      assert Decimal(n)[..0] == "";
    }
  }

  const INT64: int := 0x8000_0000_0000_0000

  /** strconv.Atoi and ParseInt(_, 10, 64): an optional sign, digits, in range. */
  function ParseInt(s: string): Option<int> {
    if s == "" then None
    else
      var digits := if s[0] == '+' || s[0] == '-' then s[1..] else s;
      if digits == "" || !Digits(digits) then None
      else
        var n: int := Value(digits);
        if s[0] == '-' then (if n <= INT64 then Some(-n) else None) else if n < INT64 then Some(n) else None
  }

  function FormatInt(n: int): string {
    if n < 0 then "-" + Decimal(-n) else Decimal(n)
  }

  lemma ParseFormat(n: int)
    requires -INT64 <= n < INT64
    ensures ParseInt(FormatInt(n)) == Some(n)
  {
    if n < 0 {
      ParseNegative(-n);
    } else {
      ParseDecimal(n);
    }
  }

  lemma ParseDecimal(n: nat)
    requires n < INT64
    ensures ParseInt(Decimal(n)) == Some(n)
  {
    DecimalInverse(n);
    assert Digit(Decimal(n)[0]);
  }

  lemma ParseNegative(n: int)
    requires 0 < n <= INT64
    ensures ParseInt("-" + Decimal(n)) == Some(-n)
  {
    DecimalInverse(n);
    assert ("-" + Decimal(n))[1..] == Decimal(n);
  }

  // ----- digits of a fixed width -----

  function Power(w: nat): nat {
    if w == 0 then 1 else 10 * Power(w - 1)
  }

  /** `n` in exactly `w` digits. */
  function Fixed(n: nat, w: nat): (s: string)
    ensures |s| == w && Digits(s)
  {
    if w == 0 then "" else Fixed(n / 10, w - 1) + [DigitOf(n % 10)]
  }

  lemma {:induction false} FixedInverse(n: nat, w: nat)
    requires n < Power(w)
    ensures Value(Fixed(n, w)) == n
  {
    if w > 0 {
      FixedInverse(n / 10, w - 1);
      assert Fixed(n, w)[..w - 1] == Fixed(n / 10, w - 1);
    }
  }

  // ----- hexadecimal -----

  function HexDigit(n: nat): char
    requires n < 16
  {
    if n < 10 then (n + '0' as int) as char else (n - 10 + 'a' as int) as char
  }

  function HexValue(c: char): (v: Option<nat>)
    ensures v.Some? ==> v.value < 16
  {
    if Digit(c) then Some(DigitValue(c))
    else if 'a' <= c <= 'f' then Some(c as int - 'a' as int + 10)
    else if 'A' <= c <= 'F' then Some(c as int - 'A' as int + 10)
    else None
  }

  lemma HexInverse(n: nat)
    requires n < 16
    ensures HexValue(HexDigit(n)) == Some(n)
    ensures HexDigit(n) as int < 256 && HexDigit(n) != '|' && HexDigit(n) != '-' && HexDigit(n) != '.'
  {
  }

  function HexEncode(b: string): string
    requires Bytes(b)
  {
    if b == "" then "" else [HexDigit(b[0] as int / 16), HexDigit(b[0] as int % 16)] + HexEncode(b[1..])
  }

  function HexDecode(t: string): Option<string>
    decreases |t|
  {
    if t == "" then Some("")
    else if |t| == 1 || HexValue(t[0]).None? || HexValue(t[1]).None? then None
    else
      var rest := HexDecode(t[2..]);
      if rest.None? then None else Some([(HexValue(t[0]).value * 16 + HexValue(t[1]).value) as char] + rest.value)
  }

  lemma {:induction false} HexDecodeInverse(b: string)
    requires Bytes(b)
    ensures HexDecode(HexEncode(b)) == Some(b) && Bytes(HexEncode(b))
  {
    if b != "" {
      HexDecodeInverse(b[1..]);
      HexInverse(b[0] as int / 16);
      HexInverse(b[0] as int % 16);
      assert HexEncode(b)[2..] == HexEncode(b[1..]);
      assert b == [b[0]] + b[1..];
    }
  }

  // ----- splitting -----

  /** strings.SplitN(s, [sep], 2): the parts around the first separator, if there is one. */
  function Cut(s: string, sep: char): Option<(string, string)> {
    if s == "" then None
    else if s[0] == sep then Some(("", s[1..]))
    else
      var rest := Cut(s[1..], sep);
      if rest.None? then None else Some(([s[0]] + rest.value.0, rest.value.1))
  }

  lemma {:induction false} CutAtFirst(a: string, sep: char, b: string)
    requires sep !in a
    ensures Cut(a + [sep] + b, sep) == Some((a, b))
  {
    if a == "" {
      assert a + [sep] + b == [sep] + b;
    } else {
      assert a[0] in a && (sep in a[1..] ==> sep in a);
      CutAtFirst(a[1..], sep, b);
      assert (a + [sep] + b)[1..] == a[1..] + [sep] + b && (a + [sep] + b)[0] == a[0];
      assert a == [a[0]] + a[1..];
    }
  }

  lemma {:induction false} CutSplits(s: string, sep: char)
    ensures Cut(s, sep).None? <==> sep !in s
    ensures Cut(s, sep).Some? ==> s == Cut(s, sep).value.0 + [sep] + Cut(s, sep).value.1 && sep !in Cut(s, sep).value.0
  {
    if s != "" && s[0] != sep {
      CutSplits(s[1..], sep);
      assert s == [s[0]] + s[1..];
    }
  }

  // ----- the standards' own examples -----

  /** Section 10 of RFC 4648, without the padding, and the two characters its section 5 changes. */
  lemma StandardBase64()
    ensures EncodeBase64("f") == "Zg" && EncodeBase64("fo") == "Zm8" && EncodeBase64("foo") == "Zm9v"
    ensures EncodeBase64([251 as char, 255 as char]) == "-_8"
  {
    assert "foo"[3..] == "";
  }

  lemma StandardHex()
    ensures HexEncode("zoo") == "7a6f6f" && HexDecode("7A6f") == Some("zo")
  {
    assert "zoo"[1..] == "oo" && "oo"[1..] == "o" && "o"[1..] == "";
    assert HexEncode("o") == "6f" && HexEncode("oo") == "6f6f";
    assert "7A6f"[2..] == "6f" && "6f"[2..] == "";
    assert HexDecode("6f") == Some([111 as char] + "");
    assert [122 as char] + ([111 as char] + "") == "zo";
  }
}
