/** Pagination cursors as opaque text: the keyset cursor of a timestamp and a UUID, and the offset
    cursor of search. */
module Cursors {
  import opened Model
  import opened Encoding
  import Paging

  // ----- timestamps -----

  /** A UTC timestamp by its calendar fields. */
  datatype Time = Time(year: int, month: nat, day: nat, hour: nat, minute: nat, second: nat, nano: nat)

  const ZERO := Time(1, 1, 1, 0, 0, 0, 0)

  predicate Leap(year: int) {
    year % 4 == 0 && (year % 100 != 0 || year % 400 == 0)
  }

  function DaysIn(year: int, month: nat): nat {
    if month == 2 then (if Leap(year) then 29 else 28)
    else if month == 4 || month == 6 || month == 9 || month == 11 then 30
    else 31
  }

  predicate OnCalendar(t: Time) {
    && 1 <= t.month <= 12 && 1 <= t.day <= DaysIn(t.year, t.month)
    && t.hour < 24 && t.minute < 60 && t.second < 60 && t.nano < Power(9)
  }

  /** At least four digits, a sign before negative years. */
  function YearText(year: int): string {
    if year < 0 then "-" + Padded(-year) else Padded(year)
  }

  function Padded(n: nat): (s: string)
    ensures Digits(s) && |s| >= 4
  {
    if n < 10000 then Fixed(n, 4) else LongYear(n)
  }

  function LongYear(n: nat): (s: string)
    requires n >= 10000
    ensures Digits(s) && |s| >= 5
  {
    LongDecimal(n);
    Decimal(n)
  }

  lemma LongDecimal(n: nat)
    requires n >= 10000
    ensures |Decimal(n)| >= 5
  {
    assert |Decimal(n / 10)| >= 4 by {
      assert |Decimal(n / 10 / 10)| >= 3 by {
        assert |Decimal(n / 10 / 10 / 10)| >= 2;
      }
    }
  }

  function TrimZeros(d: string): (s: string)
    requires Digits(d)
    ensures Digits(s) && |s| <= |d|
  {
    if d != "" && d[|d| - 1] == '0' then TrimZeros(d[..|d| - 1]) else d
  }

  /** The fraction without trailing zeros, nothing for a whole second. */
  function FractionText(nano: nat): string {
    var d := TrimZeros(Fixed(nano, 9));
    if d == "" then "" else "." + d
  }

  /** RFC3339Nano in UTC, section 5.6 of RFC 3339. */
  function FormatTime(t: Time): string {
    YearText(t.year) + ("-" + (Fixed(t.month, 2) + ("-" + (Fixed(t.day, 2) + ("T" + (Fixed(t.hour, 2) + (":"
    + (Fixed(t.minute, 2) + (":" + (Fixed(t.second, 2) + (FractionText(t.nano) + "Z")))))))))))
  }

  // ----- parsing -----

  /** A number of exactly `w` digits, and the rest. */
  function TakeNumber(s: string, w: nat): Option<(nat, string)> {
    if |s| < w || !Digits(s[..w]) then None else Some((Value(s[..w]), s[w..]))
  }

  /** The hour may have one digit or two. */
  function TakeHour(s: string): Option<(nat, string)> {
    if TakeNumber(s, 2).Some? then TakeNumber(s, 2) else TakeNumber(s, 1)
  }

  function TakeChar(s: string, c: char): Option<string> {
    if s != "" && s[0] == c then Some(s[1..]) else None
  }

  /** The longest run of digits. */
  function LeadingDigits(s: string): (n: nat)
    ensures n <= |s| && Digits(s[..n])
  {
    if s == "" || !Digit(s[0]) then 0
    else
      assert s[..1 + LeadingDigits(s[1..])] == [s[0]] + s[1..][..LeadingDigits(s[1..])];
      1 + LeadingDigits(s[1..])
  }

  function Nanos(d: string): nat
    requires Digits(d) && |d| <= 9
  {
    Value(d) * Power(9 - |d|)
  }

  /** A dot (or comma) and digits, of which nine count; or no fraction at all. */
  function TakeFraction(s: string): (nat, string) {
    if |s| < 2 || (s[0] != '.' && s[0] != ',') || !Digit(s[1]) then (0, s)
    else
      var n := LeadingDigits(s[1..]);
      (Nanos(s[1..][..if n > 9 then 9 else n]), s[1 + n..])
  }

  /** A date: year, month, day. */
  function ParseDate(s: string): Option<((nat, nat, nat), string)> {
    var year := TakeNumber(s, 4);
    if year.None? then None
    else
      var r1 := TakeChar(year.value.1, '-');
      if r1.None? then None
      else
        var month := TakeNumber(r1.value, 2);
        if month.None? then None
        else
          var r2 := TakeChar(month.value.1, '-');
          if r2.None? then None
          else
            var day := TakeNumber(r2.value, 2);
            if day.None? then None else Some(((year.value.0, month.value.0, day.value.0), day.value.1))
  }

  /** A time of day: hour, minute, second. */
  function ParseClock(s: string): Option<((nat, nat, nat), string)> {
    var hour := TakeHour(s);
    if hour.None? then None
    else
      var r1 := TakeChar(hour.value.1, ':');
      if r1.None? then None
      else
        var minute := TakeNumber(r1.value, 2);
        if minute.None? then None
        else
          var r2 := TakeChar(minute.value.1, ':');
          if r2.None? then None
          else
            var second := TakeNumber(r2.value, 2);
            if second.None? then None else Some(((hour.value.0, minute.value.0, second.value.0), second.value.1))
  }

  function ParseTime(s: string): Option<Time> {
    var date := ParseDate(s);
    if date.None? then None
    else
      var r := TakeChar(date.value.1, 'T');
      if r.None? then None
      else
        var clock := ParseClock(r.value);
        if clock.None? then None
        else
          var (nano, rest) := TakeFraction(clock.value.1);
          var (y, m, d) := date.value.0;
          var (h, i, c) := clock.value.0;
          var t := Time(y, m, d, h, i, c, nano);
          if rest == "Z" && OnCalendar(t) then Some(t) else None
  }

  // ----- the parser undoes the formatter -----

  lemma TakeFixed(n: nat, w: nat, rest: string)
    requires n < Power(w)
    ensures TakeNumber(Fixed(n, w) + rest, w) == Some((n, rest))
  {
    FixedInverse(n, w);
    assert (Fixed(n, w) + rest)[..w] == Fixed(n, w) && (Fixed(n, w) + rest)[w..] == rest;
  }

  lemma TakeLiteral(c: char, rest: string)
    ensures TakeChar([c] + rest, c) == Some(rest)
  {
  }

  lemma Powers()
    ensures Power(2) == 100 && Power(4) == 10000 && Power(9) == 1000000000
  {
    assert Power(3) == 1000 && Power(5) == 100000 && Power(6) == 1000000 && Power(7) == 10000000 && Power(8) == 100000000;
  }

  lemma {:induction false} LeadingRun(d: string, rest: string)
    requires Digits(d) && (rest == "" || !Digit(rest[0]))
    ensures LeadingDigits(d + rest) == |d|
  {
    if d == "" {
      assert d + rest == rest;
    } else {
      LeadingRun(d[1..], rest);
      assert (d + rest)[1..] == d[1..] + rest;
    }
  }

  lemma {:induction false} TrimKeepsNanos(d: string)
    requires Digits(d) && |d| <= 9
    ensures Nanos(TrimZeros(d)) == Nanos(d)
  {
    if d != "" && d[|d| - 1] == '0' {
      var e := d[..|d| - 1];
      TrimKeepsNanos(e);
      assert Value(d) == Value(e) * 10;
      assert Power(9 - |e|) == 10 * Power(9 - |d|);
      Regroup(Value(e), Power(9 - |d|));
    }
  }

  lemma Regroup(a: nat, b: nat)
    ensures a * (10 * b) == (a * 10) * b
  {
  }

  lemma FractionInverse(nano: nat)
    requires nano < Power(9)
    ensures TakeFraction(FractionText(nano) + "Z") == (nano, "Z")
  {
    var d := TrimZeros(Fixed(nano, 9));
    FixedInverse(nano, 9);
    TrimKeepsNanos(Fixed(nano, 9));
    assert Power(0) == 1;
    if d == "" {
      assert FractionText(nano) + "Z" == "Z";
    } else {
      var s := FractionText(nano) + "Z";
      assert s[1..] == d + "Z" && s[1] == d[0];
      LeadingRun(d, "Z");
      assert s[1..][..|d|] == d && s[1 + |d|..] == "Z";
    }
  }

  lemma DateInverse(t: Time, rest: string)
    requires OnCalendar(t) && 0 <= t.year <= 9999
    ensures ParseDate(YearText(t.year) + ("-" + (Fixed(t.month, 2) + ("-" + (Fixed(t.day, 2) + rest)))))
      == Some(((t.year, t.month, t.day), rest))
  {
    Powers();
    var r3 := Fixed(t.day, 2) + rest;
    var r2 := Fixed(t.month, 2) + ("-" + r3);
    TakeFixed(t.year, 4, "-" + r2);
    TakeLiteral('-', r2);
    TakeFixed(t.month, 2, "-" + r3);
    TakeLiteral('-', r3);
    TakeFixed(t.day, 2, rest);
  }

  lemma ClockInverse(t: Time, rest: string)
    requires OnCalendar(t)
    ensures ParseClock(Fixed(t.hour, 2) + (":" + (Fixed(t.minute, 2) + (":" + (Fixed(t.second, 2) + rest)))))
      == Some(((t.hour, t.minute, t.second), rest))
  {
    Powers();
    var r3 := Fixed(t.second, 2) + rest;
    var r2 := Fixed(t.minute, 2) + (":" + r3);
    TakeFixed(t.hour, 2, ":" + r2);
    TakeLiteral(':', r2);
    TakeFixed(t.minute, 2, ":" + r3);
    TakeLiteral(':', r3);
    TakeFixed(t.second, 2, rest);
  }

  /** A four-digit year survives. */
  lemma TimeInverse(t: Time)
    requires OnCalendar(t) && 0 <= t.year <= 9999
    ensures ParseTime(FormatTime(t)) == Some(t)
  {
    var fraction := FractionText(t.nano) + "Z";
    var clock := Fixed(t.hour, 2) + (":" + (Fixed(t.minute, 2) + (":" + (Fixed(t.second, 2) + fraction))));
    DateInverse(t, "T" + clock);
    TakeLiteral('T', clock);
    ClockInverse(t, fraction);
    FractionInverse(t.nano);
  }

  /** Any other year does not: the parser takes exactly four digits and then wants a dash. */
  lemma LongYearIsLost(t: Time)
    requires t.year < 0 || t.year > 9999
    ensures ParseTime(FormatTime(t)).None?
  {
    var s := FormatTime(t);
    if t.year < 0 {
      assert s[0] == '-' && s[..4][0] == '-';
    } else {
      var y := YearText(t.year);
      assert y == LongYear(t.year) && s[4] == y[4] && Digit(y[4]);
      assert s[4..] != "" && s[4..][0] == s[4];
    }
  }

  // ----- UUIDs -----

  /** 32 hexadecimal digits. */
  type Uuid = u: seq<nat> | |u| == 32 && forall i :: 0 <= i < 32 ==> u[i] < 16 witness seq(32, _ => 0)

  predicate Nil(u: Uuid) {
    forall i :: 0 <= i < 32 ==> u[i] == 0
  }

  /** Where digit `i` stands in the text 8-4-4-4-12. */
  function Position(i: nat): nat {
    if i < 8 then i else if i < 12 then i + 1 else if i < 16 then i + 2 else if i < 20 then i + 3 else i + 4
  }

  predicate Dash(p: nat) {
    p == 8 || p == 13 || p == 18 || p == 23
  }

  /** Which digit stands at `p`. */
  function IndexAt(p: nat): nat {
    if p < 8 then p else if p < 13 then p - 1 else if p < 18 then p - 2 else if p < 23 then p - 3 else p - 4
  }

  function UuidText(u: Uuid): string {
    seq(36, p requires 0 <= p < 36 => if Dash(p) then '-' else HexDigit(u[IndexAt(p)]))
  }

  /** uuid.Parse for texts of 36 characters. */
  function ParseUuid(s: string): Option<Uuid> {
    if |s| != 36 || s[8] != '-' || s[13] != '-' || s[18] != '-' || s[23] != '-' then None
    else if !HexText(s) then None
    else Some(NibblesOf(s))
  }

  predicate HexText(s: string)
    requires |s| == 36
  {
    forall i :: 0 <= i < 32 ==> HexValue(s[Position(i)]).Some?
  }

  function NibblesOf(s: string): Uuid
    requires |s| == 36 && HexText(s)
  {
    seq(32, i requires 0 <= i < 32 => HexValue(s[Position(i)]).value)
  }

  lemma UuidInverse(u: Uuid)
    ensures ParseUuid(UuidText(u)) == Some(u)
    ensures '|' !in UuidText(u) && Bytes(UuidText(u))
  {
    var s := UuidText(u);
    forall i | 0 <= i < 32 ensures HexValue(s[Position(i)]) == Some(u[i]) {
      assert !Dash(Position(i)) && IndexAt(Position(i)) == i;
      HexInverse(u[i]);
    }
    forall p | 0 <= p < 36 ensures s[p] != '|' && s[p] as int < 256 {
      if !Dash(p) {
        HexInverse(u[IndexAt(p)]);
      }
    }
    assert ParseUuid(s).value == u;
  }

  // ----- the keyset cursor -----

  datatype Decoded = First | Cursor(time: Time, id: Uuid) | Invalid

  function EncodeCursor(t: Time, id: Uuid): string {
    if t == ZERO || Nil(id) then "" else EncodeBase64(CursorText(t, id))
  }

  function CursorText(t: Time, id: Uuid): (s: string)
    ensures Bytes(s)
  {
    TextIsBytes(t, id);
    FormatTime(t) + ['|'] + UuidText(id)
  }

  function DecodeCursor(cursor: string): Decoded {
    if cursor == "" then First
    else
      var raw := DecodeBase64(cursor);
      if raw.None? then Invalid
      else
        var parts := Cut(raw.value, '|');
        if parts.None? then Invalid else Both(ParseTime(parts.value.0), ParseUuid(parts.value.1))
  }

  function Both(t: Option<Time>, id: Option<Uuid>): Decoded {
    if t.None? || id.None? then Invalid else Cursor(t.value, id.value)
  }

  predicate Plain(s: string) {
    forall i :: 0 <= i < |s| ==> s[i] as int < 256 && s[i] != '|'
  }

  lemma DigitsArePlain(s: string)
    requires Digits(s)
    ensures Plain(s)
  {
  }

  /** Digits, a separator and plain text. */
  lemma JoinIsPlain(digits: string, separator: string, rest: string)
    requires Digits(digits) && Plain(separator) && Plain(rest)
    ensures Plain(digits + (separator + rest))
  {
    DigitsArePlain(digits);
  }

  lemma TimeIsPlain(t: Time)
    ensures Plain(FormatTime(t))
  {
    var second := Fixed(t.second, 2) + ("" + (FractionText(t.nano) + "Z"));
    var minute := Fixed(t.minute, 2) + (":" + second);
    var hour := Fixed(t.hour, 2) + (":" + minute);
    var day := Fixed(t.day, 2) + ("T" + hour);
    var month := Fixed(t.month, 2) + ("-" + day);
    JoinIsPlain(Fixed(t.second, 2), "", FractionText(t.nano) + "Z");
    JoinIsPlain(Fixed(t.minute, 2), ":", second);
    JoinIsPlain(Fixed(t.hour, 2), ":", minute);
    JoinIsPlain(Fixed(t.day, 2), "T", hour);
    JoinIsPlain(Fixed(t.month, 2), "-", day);
    YearIsPlain(t.year);
    assert "" + (FractionText(t.nano) + "Z") == FractionText(t.nano) + "Z";
    assert FormatTime(t) == YearText(t.year) + ("-" + month);
  }

  lemma YearIsPlain(year: int)
    ensures Plain(YearText(year))
  {
  }

  lemma TextIsBytes(t: Time, id: Uuid)
    ensures Bytes(FormatTime(t) + ['|'] + UuidText(id)) && '|' !in FormatTime(t)
  {
    TimeIsPlain(t);
    UuidInverse(id);
  }

  /** What comes back for a cursor that was written. */
  lemma CursorComesBack(t: Time, id: Uuid)
    requires t != ZERO && !Nil(id)
    ensures DecodeCursor(EncodeCursor(t, id))
      == if ParseTime(FormatTime(t)).None? then Invalid else Cursor(ParseTime(FormatTime(t)).value, id)
  {
    TextIsBytes(t, id);
    var raw := FormatTime(t) + ['|'] + UuidText(id);
    Base64Inverse(raw);
    EncodedHasNoBreaks(raw);
    CutAtFirst(FormatTime(t), '|', UuidText(id));
    UuidInverse(id);
  }

  /** The theorem: for a non-zero time and a non-nil id decoding inverts encoding if and only if
      the year has four digits, as every year of section 5.6 of RFC 3339 has. */
  lemma CursorInverseIff(t: Time, id: Uuid)
    requires OnCalendar(t) && t != ZERO && !Nil(id)
    ensures DecodeCursor(EncodeCursor(t, id)) == Cursor(t, id) <==> 0 <= t.year <= 9999
  {
    CursorComesBack(t, id);
    if 0 <= t.year <= 9999 {
      TimeInverse(t);
    } else {
      LongYearIsLost(t);
    }
  }

  /** Different rows get different cursors. */
  lemma CursorIsInjective(t: Time, id: Uuid, t': Time, id': Uuid)
    requires OnCalendar(t) && OnCalendar(t') && 0 <= t.year <= 9999 && 0 <= t'.year <= 9999
    requires t != ZERO && t' != ZERO && !Nil(id) && !Nil(id')
    ensures EncodeCursor(t, id) == EncodeCursor(t', id') <==> t == t' && id == id'
  {
    CursorInverseIff(t, id);
    CursorInverseIff(t', id');
  }

  // ----- the offset cursor -----

  const TAG := "offset:"

  function EncodeOffset(offset: nat): string {
    OffsetIsBytes(offset);
    EncodeBase64(TAG + Decimal(offset))
  }

  /** A text that is not base64 is taken as it is; the tag is optional. */
  function ParseOffset(raw: string): Option<nat> {
    if raw == "" then Some(0)
    else
      var decoded := DecodeBase64(raw);
      var text := if decoded.Some? then decoded.value else raw;
      var digits := if TAG <= text then text[|TAG|..] else text;
      var n := ParseInt(digits);
      if n.None? || n.value < 0 || n.value > Paging.MAX_OFFSET then None else Some(n.value)
  }

  lemma OffsetIsBytes(offset: nat)
    ensures Bytes(TAG + Decimal(offset))
  {
    assert Digits(Decimal(offset));
  }

  /** An emitted offset cursor is read back, or rejected exactly when it is beyond the bound. */
  lemma OffsetInverse(offset: nat)
    requires offset < INT64
    ensures ParseOffset(EncodeOffset(offset)) == if Paging.Accepted(offset) then Some(offset) else None
  {
    OffsetIsBytes(offset);
    var text := TAG + Decimal(offset);
    Base64Inverse(text);
    EncodedHasNoBreaks(text);
    ParseFormat(offset);
    assert text[|TAG|..] == Decimal(offset);
  }

  // ----- every text -----

  /** No cursor asks for the first page, and only a cursor of nothing is no cursor. */
  lemma FirstPages(cursor: string, t: Time, id: Uuid)
    ensures DecodeCursor(cursor) == First <==> cursor == ""
    ensures EncodeCursor(t, id) == "" <==> t == Time(1, 1, 1, 0, 0, 0, 0) || forall i :: 0 <= i < 32 ==> id[i] == 0
    ensures ParseOffset("") == Some(0)
  {
    if t != ZERO && !Nil(id) {
      EncodedHasNoBreaks(CursorText(t, id));
    }
  }

  /** Which texts are cursors: exactly those that decode to a time, a bar and an id. */
  lemma DecodesIff(cursor: string, t: Time, id: Uuid)
    ensures DecodeCursor(cursor) == Cursor(t, id) <==> exists left, right :: Reads(cursor, left, right, t, id)
    ensures DecodeCursor(cursor) == Cursor(t, id) ==> OnCalendar(t) && 0 <= t.year <= 9999
  {
    forall left, right | Reads(cursor, left, right, t, id) ensures DecodeCursor(cursor) == Cursor(t, id) {
      CutAtFirst(left, '|', right);
    }
    if DecodeCursor(cursor) == Cursor(t, id) {
      var raw := DecodeBase64(cursor).value;
      CutSplits(raw, '|');
      assert Reads(cursor, Cut(raw, '|').value.0, Cut(raw, '|').value.1, t, id);
      YearIsShort(Cut(raw, '|').value.0);
    }
  }

  predicate Reads(cursor: string, left: string, right: string, t: Time, id: Uuid) {
    DecodeBase64(cursor) == Some(left + ['|'] + right) && '|' !in left && ParseTime(left) == Some(t) && ParseUuid(right) == Some(id)
  }

  lemma YearIsShort(s: string)
    ensures ParseTime(s).Some? ==> 0 <= ParseTime(s).value.year <= 9999
  {
    if ParseTime(s).Some? {
      ValueIsBelow(s[..4]);
      Powers();
    }
  }

  lemma {:induction false} ValueIsBelow(d: string)
    requires Digits(d)
    ensures Value(d) < Power(|d|)
  {
    if d != "" {
      ValueIsBelow(d[..|d| - 1]);
    }
  }

  function Hexes(d: seq<nat>): string
    requires forall i :: 0 <= i < |d| ==> d[i] < 16
  {
    seq(|d|, i requires 0 <= i < |d| => HexDigit(d[i]))
  }

  /** Section 4 of RFC 9562: the digits in groups of 8, 4, 4, 4 and 12. */
  lemma UuidGroups(u: Uuid)
    ensures UuidText(u)
      == Hexes(u[..8]) + "-" + Hexes(u[8..12]) + "-" + Hexes(u[12..16]) + "-" + Hexes(u[16..20]) + "-" + Hexes(u[20..])
  {
  }

  lemma {:induction false} Shifted(n: nat, w: nat)
    requires w > 0
    ensures Fixed(n, w) == Fixed(n / 10, w - 1) + [DigitOf(n % 10)]
  {
  }

  lemma TwoDigits(n: nat, a: nat, b: nat)
    requires a < 10 && b < 10 && n == 10 * a + b
    ensures Fixed(n, 2) == [DigitOf(a), DigitOf(b)]
  {
    Shifted(n, 2);
    assert n / 10 == a && n % 10 == b;
    Shifted(a, 1);
    assert Fixed(a / 10, 0) == "";
  }

  lemma Pairs()
    ensures Fixed(1, 2) == "01" && Fixed(2, 2) == "02" && Fixed(13, 2) == "13" && Fixed(45, 2) == "45" && Fixed(6, 2) == "06"
  {
    TwoDigits(1, 0, 1);
    TwoDigits(2, 0, 2);
    TwoDigits(13, 1, 3);
    TwoDigits(45, 4, 5);
    TwoDigits(6, 0, 6);
  }

  lemma YearDigits()
    ensures Fixed(2024, 4) == "2024"
  {
    Shifted(2024, 4);
    Shifted(202, 3);
    TwoDigits(20, 2, 0);
    assert Fixed(202, 3) == "202";
  }

  /** The fields in the order of section 5.6 of RFC 3339. */
  lemma TimeText()
    ensures FormatTime(Time(2024, 1, 2, 13, 45, 6, 0)) == "2024-01-02T13:45:06Z"
  {
    Pairs();
    YearDigits();
    NoFraction();
    assert YearText(2024) == "2024";
    var clock := "13" + (":" + ("45" + (":" + ("06" + ("" + "Z")))));
    assert clock == "13:45:06Z";
    assert FormatTime(Time(2024, 1, 2, 13, 45, 6, 0)) == "2024" + ("-" + ("01" + ("-" + ("02" + ("T" + clock)))));
  }

  lemma NoFraction()
    ensures FractionText(0) == ""
  {
    ZerosTrimmed(9);
  }

  lemma {:induction false} ZerosTrimmed(w: nat)
    ensures TrimZeros(Fixed(0, w)) == ""
  {
    if w > 0 {
      Shifted(0, w);
      ZerosTrimmed(w - 1);
      assert Fixed(0, w)[..w - 1] == Fixed(0, w - 1);
    }
  }
}
