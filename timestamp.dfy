/**
 * The event-log timestamp of script.js: the fields of a local `Date` rendered as
 * `[Y-MM-DD HH:MM:SS]`, where each of month, day, hour, minute and second goes
 * through `toString().padStart(2, '0')` and the year is printed as it is.
 *
 * The parser `ParseTimestamp` is not part of the source; it is a left inverse of
 * `Format` and shows the format loses nothing for every date a `Date` can produce.
 */
module Timestamp {
  import opened Wrappers

  /** The values of `getFullYear()`, `getMonth()`, `getDate()`, `getHours()`,
      `getMinutes()` and `getSeconds()`; `month0` is zero-based, as `getMonth()` is. */
  datatype DateFields = DateFields(year: int, month0: nat, day: nat, hours: nat, minutes: nat, seconds: nat)

  /** The ranges the getters of a `Date` return. */
  predicate InCalendarRange(d: DateFields) {
    d.month0 < 12 && 1 <= d.day <= 31 && d.hours < 24 && d.minutes < 60 && d.seconds < 60
  }

  predicate IsDigit(c: char) {
    '0' <= c <= '9'
  }

  predicate AllDigits(s: string) {
    forall i :: 0 <= i < |s| ==> IsDigit(s[i])
  }

  function DigitChar(d: nat): (c: char)
    requires d < 10
    ensures IsDigit(c) && c as int - '0' as int == d
  {
    ('0' as int + d) as char
  }

  /** The numeric value of a string of decimal digits, most significant first. */
  function DigitsValue(s: string): nat
    requires AllDigits(s)
  {
    if s == [] then 0 else 10 * DigitsValue(s[..|s| - 1]) + (s[|s| - 1] as int - '0' as int)
  }

  /** `Number.prototype.toString()` of a non-negative integer: its decimal digits
      without leading zeros. */
  function NatToString(n: nat): (s: string)
    ensures |s| >= 1 && AllDigits(s)
    ensures |s| > 1 ==> s[0] != '0'
    ensures |s| == 1 <==> n < 10
    ensures |s| <= 2 <==> n < 100
    ensures DigitsValue(s) == n
    decreases n
  {
    if n < 10 then [DigitChar(n)]
    else
      var front := NatToString(n / 10);
      var s := front + [DigitChar(n % 10)];
      assert s[..|s| - 1] == front;
      assert n < 100 <==> n / 10 < 10;
      s
  }

  /** `Number.prototype.toString()` of an integer: a minus sign before the digits of a
      negative value. */
  function IntToString(i: int): (s: string)
    ensures |s| >= 1
    ensures i >= 0 ==> AllDigits(s) && DigitsValue(s) == i && (|s| > 1 ==> s[0] != '0')
    ensures i < 0 ==> |s| >= 2 && s[0] == '-' && AllDigits(s[1..]) && DigitsValue(s[1..]) == -i
                      && (|s| > 2 ==> s[1] != '0')
  {
    if i < 0 then "-" + NatToString(-i) else NatToString(i)
  }

  /** `String.prototype.padStart(width, fill)` with a one-character fill string. */
  function PadStart(s: string, width: nat, fill: char): (r: string)
    ensures |s| >= width ==> r == s
    ensures |s| < width ==> |r| == width && r[width - |s|..] == s
    ensures forall i :: 0 <= i < |r| - |s| ==> r[i] == fill
  {
    if |s| >= width then s else seq(width - |s|, _ => fill) + s
  }

  /** `n.toString().padStart(2, '0')`. */
  function Pad2(n: nat): (r: string)
    ensures |r| >= 2 && AllDigits(r)
    ensures n < 10 ==> r == ['0', DigitChar(n)]
    ensures n >= 10 ==> r == NatToString(n)
    ensures n < 100 <==> |r| == 2
    ensures DigitsValue(r) == n
  {
    PadStart(NatToString(n), 2, '0')
  }

  /** The part of the timestamp after the year: `-MM-DD HH:MM:SS]`, each field
      through `Pad2`. */
  function Tail(d: DateFields): (r: string)
    ensures |r| >= 16
    ensures InCalendarRange(d) ==> |r| == 16
  {
    "-" + (Pad2(d.month0 + 1) + ("-" + (Pad2(d.day) + (" " + (Pad2(d.hours) + (":" + (Pad2(d.minutes) + (":" + (Pad2(d.seconds) + "]")))))))))
  }

  /** The timestamp string of script.js:18. */
  function Format(d: DateFields): (r: string)
    ensures |r| >= |IntToString(d.year)| + 17 && r[0] == '[' && r[|r| - 1] == ']'
    ensures r[1..1 + |IntToString(d.year)|] == IntToString(d.year)
    ensures r[1 + |IntToString(d.year)|] == '-'
    ensures InCalendarRange(d) ==> |r| == |IntToString(d.year)| + 17
  {
    var y := IntToString(d.year);
    var r := "[" + y + Tail(d);
    assert r[1..1 + |y|] == y;
    assert r[1 + |y|..] == Tail(d);
    r
  }

  /** Decimal digits to a natural number; fails on an empty string or a non-digit. */
  function ParseNat(s: string): (r: Option<nat>)
    ensures r.Some? <==> |s| > 0 && AllDigits(s)
  {
    if |s| > 0 && AllDigits(s) then Some(DigitsValue(s)) else None
  }

  /** An optional minus sign followed by decimal digits. */
  function ParseInt(s: string): Option<int> {
    if |s| > 0 && s[0] == '-' then
      match ParseNat(s[1..])
      case None => None
      case Some(n) => Some(-(n as int))
    else
      match ParseNat(s)
      case None => None
      case Some(n) => Some(n as int)
  }

  /** Reads a separator followed by a two-digit field, and returns the field's value
      and what follows it. */
  function ParseField(t: string, sep: char): Option<(nat, string)> {
    if |t| < 3 || t[0] != sep then None
    else
      match ParseNat(t[1..3])
      case None => None
      case Some(n) => Some((n, t[3..]))
  }

  /** Reads back the tail `-MM-DD HH:MM:SS]` as month, day, hours, minutes and
      seconds (the month as written, one-based). */
  function ParseTail(t: string): Option<(nat, nat, nat, nat, nat)> {
    match ParseField(t, '-')
    case None => None
    case Some((mo, t1)) =>
      match ParseField(t1, '-')
      case None => None
      case Some((dd, t2)) =>
        match ParseField(t2, ' ')
        case None => None
        case Some((hh, t3)) =>
          match ParseField(t3, ':')
          case None => None
          case Some((mi, t4)) =>
            match ParseField(t4, ':')
            case None => None
            case Some((ss, t5)) => if t5 == "]" then Some((mo, dd, hh, mi, ss)) else None
  }

  /** Reads back a `[Y-MM-DD HH:MM:SS]` string: the year is everything between the
      opening bracket and the fixed-width tail of 16 characters. */
  function ParseTimestamp(s: string): Option<DateFields> {
    if |s| < 18 || s[0] != '[' then None
    else
      match (ParseInt(s[1..|s| - 16]), ParseTail(s[|s| - 16..]))
      case (Some(y), Some((mo, dd, hh, mi, ss))) =>
        if mo == 0 then None else Some(DateFields(y, mo - 1, dd, hh, mi, ss))
      case _ => None
  }

  lemma IntRoundTrip(i: int)
    ensures ParseInt(IntToString(i)) == Some(i)
  {
    if i < 0 {
      var s := IntToString(i);
      assert s[1..] == NatToString(-i);
    } else {
      assert IntToString(i)[0] != '-';
    }
  }

  lemma FieldRoundTrip(n: nat, sep: char, rest: string)
    requires n < 100
    ensures ParseField([sep] + (Pad2(n) + rest), sep) == Some((n, rest))
  {
    var t := [sep] + (Pad2(n) + rest);
    assert t[1..3] == Pad2(n);
    assert t[3..] == rest;
  }

  lemma TailRoundTrip(d: DateFields)
    requires InCalendarRange(d)
    ensures ParseTail(Tail(d)) == Some((d.month0 + 1, d.day, d.hours, d.minutes, d.seconds))
  {
    var r4 := ":" + (Pad2(d.seconds) + "]");
    var r3 := ":" + (Pad2(d.minutes) + r4);
    var r2 := " " + (Pad2(d.hours) + r3);
    var r1 := "-" + (Pad2(d.day) + r2);
    FieldRoundTrip(d.month0 + 1, '-', r1);
    FieldRoundTrip(d.day, '-', r2);
    FieldRoundTrip(d.hours, ' ', r3);
    FieldRoundTrip(d.minutes, ':', r4);
    FieldRoundTrip(d.seconds, ':', "]");
  }

  /** Every date a `Date` can produce is recovered from its timestamp. */
  lemma FormatRoundTrip(d: DateFields)
    requires InCalendarRange(d)
    ensures ParseTimestamp(Format(d)) == Some(d)
  {
    var y := IntToString(d.year);
    var s := Format(d);
    assert s == "[" + y + Tail(d);
    assert s[1..|s| - 16] == y;
    assert s[|s| - 16..] == Tail(d);
    IntRoundTrip(d.year);
    TailRoundTrip(d);
  }

  /** Distinct dates give distinct timestamps. */
  lemma FormatInjective(d1: DateFields, d2: DateFields)
    requires InCalendarRange(d1) && InCalendarRange(d2)
    ensures Format(d1) == Format(d2) ==> d1 == d2
  {
    FormatRoundTrip(d1);
    FormatRoundTrip(d2);
  }
}
