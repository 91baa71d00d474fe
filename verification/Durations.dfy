/**
 Durations in nanoseconds, printed by formatDuration and read back by Go's time.ParseDuration.
 Division and remainder truncate toward zero, as Go's do.  Fractions ("1.5h") are not modelled.
 */
module Durations {
  import opened Options
  import opened Decimal
  import opened Numbers

  const MINUTE: nat := 60_000_000_000
  const HOUR: nat := 3600_000_000_000

  /** The largest magnitude that the parser lets through while it adds. */
  const LIMIT: nat := 0x8000_0000_0000_0000

  function TruncDiv(a: int, b: nat): int
    requires b > 0
  {
    if a >= 0 then a / b else -(-a / b)
  }

  function TruncMod(a: int, b: nat): int
    requires b > 0
  {
    a - TruncDiv(a, b) * b
  }

  function Part(n: int, unit: char): string {
    Print(n) + [unit]
  }

  function FormatDuration(d: int): string {
    var h := TruncDiv(d, HOUR);
    var m := TruncDiv(TruncMod(d, HOUR), MINUTE);
    var s := TruncDiv(TruncMod(TruncMod(d, HOUR), MINUTE), SECOND);
    var hm := (if h > 0 then Part(h, 'h') else "") + (if m > 0 then Part(m, 'm') else "");
    if s > 0 || hm == "" then hm + Part(s, 's') else hm
  }

  // ------------------------------------------------------------------------------------------
  // Parsing
  // ------------------------------------------------------------------------------------------

  function UnitOf(name: string): Option<nat> {
    if name == "h" then Some(HOUR)
    else if name == "m" then Some(MINUTE)
    else if name == "s" then Some(SECOND)
    else if name == "ms" then Some(1_000_000)
    else if name == "us" || name == "\U{B5}s" || name == "\U{3BC}s" then Some(1000)
    else if name == "ns" then Some(1)
    else None
  }

  /** The length of the unit: everything up to the next digit or point. */
  function UnitLength(s: string): (k: nat)
    ensures k <= |s|
  {
    if s == "" || IsDigit(s[0]) || s[0] == '.' then 0 else 1 + UnitLength(s[1..])
  }

  datatype Item = Item(amount: nat, rest: string)

  /** A number and its unit at the front, within the limit. */
  function NextItem(s: string): (r: Option<Item>)
    ensures r.Some? ==> |r.value.rest| < |s|
  {
    var k := DigitCount(s);
    var u := UnitLength(s[k..]);
    if k == 0 || u == 0 then None else Measured(Value(s[..k]), s[k..][..u], s[k..][u..])
  }

  function Measured(v: nat, unit: string, rest: string): (r: Option<Item>)
    ensures r.Some? ==> r.value.rest == rest
  {
    var size := UnitOf(unit);
    if size.None? || v > LIMIT || v * size.value > LIMIT then None else Some(Item(v * size.value, rest))
  }

  /** Item after item, as `next` finds them, added to `d`; every item found leaves less to read. */
  function ParseWith(s: string, d: nat, next: string -> Option<Item>): Option<nat>
    decreases |s|
  {
    if s == "" then Some(d)
    else
      var item := next(s);
      if item.None? || |item.value.rest| >= |s| || d + item.value.amount > LIMIT then None
      else ParseWith(item.value.rest, d + item.value.amount, next)
  }

  function ParseParts(s: string, d: nat): Option<nat> {
    ParseWith(s, d, NextItem)
  }

  function ParseUnsigned(s: string): Option<nat> {
    if s == "0" then Some(0) else if s == "" then None else ParseParts(s, 0)
  }

  function ParseDuration(s: string): (r: Option<int>)
    ensures r.Some? ==> IsInt64(r.value)
  {
    var signed := s != "" && (s[0] == '-' || s[0] == '+');
    var d := ParseUnsigned(if signed then s[1..] else s);
    if d.None? then None
    else
      var n: int := if signed && s[0] == '-' then 0 - d.value else d.value;
      if IsInt64(n) then Some(n) else None
  }

  // ------------------------------------------------------------------------------------------
  // The round trip
  // ------------------------------------------------------------------------------------------

  lemma {:induction false} UnitLengthOne(unit: char, rest: string)
    requires !IsDigit(unit) && unit != '.' && (rest == "" || IsDigit(rest[0]))
    ensures UnitLength([unit] + rest) == 1
  {
    assert ([unit] + rest)[1..] == rest;
  }

  lemma {:induction false} NextItemIs(digits: string, unit: char, rest: string, v: nat)
    requires digits != "" && AllDigits(digits) && Value(digits) == v
    requires !IsDigit(unit) && unit != '.' && (rest == "" || IsDigit(rest[0]))
    ensures NextItem(digits + [unit] + rest) == Measured(v, [unit], rest)
  {
    var tail := [unit] + rest;
    var s := digits + [unit] + rest;
    assert s == digits + tail;
    DigitCountOf(digits, tail);
    UnitLengthOne(unit, rest);
    assert s[..|digits|] == digits && s[|digits|..] == tail;
    assert tail[..1] == [unit] && tail[1..] == rest;
  }

  lemma {:induction false} ParseItem(s: string, item: Item, d: nat, e: nat, next: string -> Option<Item>)
    requires s != "" && next(s) == Some(item) && |item.rest| < |s| && e == d + item.amount <= LIMIT
    ensures ParseWith(s, d, next) == ParseWith(item.rest, e, next)
  {
  }

  lemma {:induction false} ParsePart(v: nat, unit: char, name: string, size: nat, rest: string, d: nat)
    requires name == [unit] && UnitOf(name) == Some(size)
    requires !IsDigit(unit) && unit != '.' && (rest == "" || IsDigit(rest[0]))
    requires v <= LIMIT && v * size <= LIMIT && d + v * size <= LIMIT
    ensures ParseParts(PrintNat(v) + name + rest, d) == ParseParts(rest, d + v * size)
  {
    ValueOfPrint(v);
    var s := PrintNat(v) + name + rest;
    assert NextItem(s) == Measured(v, name, rest) by {
      NextItemIs(PrintNat(v), unit, rest, v);
    }
    ParseItem(s, Item(v * size, rest), d, d + v * size, NextItem);
  }

  /** A part that is left out when it is zero. */
  function OptionalPart(v: nat, name: string): string {
    if v > 0 then PrintNat(v) + name else ""
  }

  lemma {:induction false} ParseOptional(v: nat, unit: char, name: string, size: nat, rest: string, d: nat)
    requires name == [unit] && UnitOf(name) == Some(size)
    requires !IsDigit(unit) && unit != '.' && (rest == "" || IsDigit(rest[0]))
    requires v <= LIMIT && v * size <= LIMIT && d + v * size <= LIMIT
    ensures ParseParts(OptionalPart(v, name) + rest, d) == ParseParts(rest, d + v * size)
  {
    if v > 0 {
      ParsePart(v, unit, name, size, rest, d);
    } else {
      assert "" + rest == rest;
    }
  }

  function SecondsPart(h: nat, m: nat, s: nat, name: string): string {
    if s > 0 || (h == 0 && m == 0) then PrintNat(s) + name else ""
  }

  function Clock(h: nat, m: nat, s: nat): string {
    OptionalPart(h, "h") + (OptionalPart(m, "m") + SecondsPart(h, m, s, "s"))
  }

  lemma {:induction false} ParseSeconds(h: nat, m: nat, s: nat, unit: char, name: string, d: nat)
    requires name == [unit] && UnitOf(name) == Some(SECOND) && !IsDigit(unit) && unit != '.'
    requires s <= LIMIT && d + s * SECOND <= LIMIT
    ensures ParseParts(SecondsPart(h, m, s, name), d) == Some(d + s * SECOND)
  {
    if SecondsPart(h, m, s, name) != "" {
      ParsePart(s, unit, name, SECOND, "", d);
      assert PrintNat(s) + name + "" == PrintNat(s) + name;
    }
  }

  predicate StartsWithDigit(s: string) {
    s == "" || IsDigit(s[0])
  }

  lemma {:induction false} PartsStart(h: nat, m: nat, s: nat, min: string, sec: string)
    ensures StartsWithDigit(SecondsPart(h, m, s, sec))
    ensures StartsWithDigit(OptionalPart(m, min) + SecondsPart(h, m, s, sec))
  {
  }

  /** One more part in front. */
  lemma {:induction false} ParseBefore(v: nat, unit: char, size: nat, rest: string, d: nat, total: nat)
    requires UnitOf([unit]) == Some(size) && !IsDigit(unit) && unit != '.' && StartsWithDigit(rest)
    requires v <= LIMIT && v * size <= LIMIT && d + v * size <= LIMIT
    requires ParseParts(rest, d + v * size) == Some(total)
    ensures ParseParts(OptionalPart(v, [unit]) + rest, d) == Some(total)
  {
    ParseOptional(v, unit, [unit], size, rest, d);
  }

  lemma {:induction false} ParseTwoBefore(h: nat, m: nat, hour: char, min: char, tail: string,
                                          d: nat, e: nat, total: nat)
    requires UnitOf([hour]) == Some(HOUR) && !IsDigit(hour) && hour != '.'
    requires UnitOf([min]) == Some(MINUTE) && !IsDigit(min) && min != '.'
    requires StartsWithDigit(tail) && StartsWithDigit(OptionalPart(m, [min]) + tail)
    requires d == h * HOUR && e == d + m * MINUTE <= LIMIT && ParseParts(tail, e) == Some(total)
    ensures ParseParts(OptionalPart(h, [hour]) + (OptionalPart(m, [min]) + tail), 0) == Some(total)
  {
    var rest := OptionalPart(m, [min]) + tail;
    assert ParseParts(rest, d) == Some(total) by {
      ParseBefore(m, min, MINUTE, tail, d, total);
    }
    ParseBefore(h, hour, HOUR, rest, 0, total);
  }

  lemma {:induction false} ParseClockParts(h: nat, m: nat, s: nat, hour: char, min: char, sec: char, total: nat)
    requires UnitOf([hour]) == Some(HOUR) && !IsDigit(hour) && hour != '.'
    requires UnitOf([min]) == Some(MINUTE) && !IsDigit(min) && min != '.'
    requires UnitOf([sec]) == Some(SECOND) && !IsDigit(sec) && sec != '.'
    requires total == h * HOUR + m * MINUTE + s * SECOND <= LIMIT
    ensures ParseParts(OptionalPart(h, [hour]) + (OptionalPart(m, [min]) + SecondsPart(h, m, s, [sec])), 0)
         == Some(total)
  {
    var tail := SecondsPart(h, m, s, [sec]);
    var d := h * HOUR;
    var e := d + m * MINUTE;
    assert total == e + s * SECOND;
    assert ParseParts(tail, e) == Some(total) by {
      ParseSeconds(h, m, s, sec, [sec], e);
    }
    PartsStart(h, m, s, [min], [sec]);
    ParseTwoBefore(h, m, hour, min, tail, d, e, total);
  }

  lemma {:induction false} ParseClock(h: nat, m: nat, s: nat, n: nat, c: string)
    requires n == h * HOUR + m * MINUTE + s * SECOND <= MAX64 && c == Clock(h, m, s)
    ensures ParseDuration(c) == Some(n) && ParseDuration("-" + c) == Some(0 - n)
  {
    assert c != "" && IsDigit(c[0]) && c != "0" by {
      ClockIsNot0(h, m, s);
    }
    assert ParseUnsigned(c) == Some(n) by {
      ParseClockParts(h, m, s, 'h', 'm', 's', n);
    }
    ParseSigned(c, n);
  }

  lemma {:induction false} ClockIsNot0(h: nat, m: nat, s: nat)
    ensures Clock(h, m, s) != "" && IsDigit(Clock(h, m, s)[0]) && Clock(h, m, s) != "0"
  {
    var c := Clock(h, m, s);
    var last := c[|c| - 1];
    if SecondsPart(h, m, s, "s") != "" {
      assert last == 's';
    } else if m > 0 {
      assert last == 'm';
    } else {
      assert last == 'h';
    }
  }

  function Hours(d: nat): nat {
    d / HOUR
  }

  function Minutes(d: nat): nat {
    d % HOUR / MINUTE
  }

  function Seconds(d: nat): nat {
    d % HOUR % MINUTE / SECOND
  }

  lemma {:induction false} WholeSeconds(d: nat)
    ensures Hours(d) * HOUR + Minutes(d) * MINUTE + Seconds(d) * SECOND == d - d % SECOND
  {
    var r := d % HOUR;
    var q := r % MINUTE;
    SumOfParts(d, Hours(d), r, Minutes(d), q, Seconds(d), q % SECOND);
  }

  lemma {:induction false} SumOfParts(d: nat, h: nat, x: nat, m: nat, y: nat, s: nat, f: nat)
    requires d == h * HOUR + x && x == m * MINUTE + y && y == s * SECOND + f && f < SECOND
    ensures h * HOUR + m * MINUTE + s * SECOND == d - d % SECOND
  {
    var k, q, r := h * 3600 + m * 60 + s, d / SECOND, d % SECOND;
    assert (q - k) * SECOND == f - r;
    assert q == k;
  }

  lemma {:induction false} TruncOf(a: nat, b: nat)
    requires b > 0
    ensures TruncDiv(a, b) == a / b && TruncMod(a, b) == a % b
    ensures TruncDiv(0 - a, b) == 0 - a / b && TruncMod(0 - a, b) == 0 - a % b
  {
    assert a == a / b * b + a % b;
    assert (0 - a / b) * b == 0 - a / b * b;
  }

  lemma {:induction false} FormatNonNegative(d: nat)
    ensures FormatDuration(d) == Clock(Hours(d), Minutes(d), Seconds(d))
  {
    TruncOf(d, HOUR);
    TruncOf(d % HOUR, MINUTE);
    TruncOf(d % HOUR % MINUTE, SECOND);
    ClockText(Hours(d), Minutes(d), Seconds(d));
  }

  lemma {:induction false} ClockText(h: nat, m: nat, s: nat)
    ensures var hm := (if h > 0 then Part(h, 'h') else "") + (if m > 0 then Part(m, 'm') else "");
      Clock(h, m, s) == if s > 0 || hm == "" then hm + Part(s, 's') else hm
  {
    var hs, ms := OptionalPart(h, "h"), OptionalPart(m, "m");
    assert (if h > 0 then Part(h, 'h') else "") == hs && (if m > 0 then Part(m, 'm') else "") == ms;
    var seconds := SecondsPart(h, m, s, "s");
    ConcatAssociates(hs, ms, seconds);
    assert hs + ms == "" <==> h == 0 && m == 0;
  }

  lemma {:induction false} ConcatAssociates(a: string, b: string, c: string)
    ensures a + (b + c) == a + b + c
  {
  }

  /** The text of a duration of whole seconds: parts that are zero are left out, and "0s" stands for none. */
  lemma {:induction false} FormatSays(h: nat, m: nat, s: nat)
    requires m < 60 && s < 60
    ensures FormatDuration(((h * 60 + m) * 60 + s) * 1_000_000_000) ==
      (if h > 0 then PrintNat(h) + "h" else "")
      + ((if m > 0 then PrintNat(m) + "m" else "")
         + (if s > 0 || (h == 0 && m == 0) then PrintNat(s) + "s" else ""))
  {
    var d := ((h * 60 + m) * 60 + s) * SECOND;
    PartsOf(h, m, s, d);
    FormatNonNegative(d);
  }

  lemma {:induction false} PartsOf(h: nat, m: nat, s: nat, d: nat)
    requires m < 60 && s < 60 && d == ((h * 60 + m) * 60 + s) * SECOND
    ensures Hours(d) == h && Minutes(d) == m && Seconds(d) == s
  {
    var r := m * MINUTE + s * SECOND;
    assert d == h * HOUR + r && 0 <= r < HOUR;
    assert d / HOUR == h && d % HOUR == r;
    assert r / MINUTE == m && r % MINUTE == s * SECOND;
  }

  /** Hours and minutes of a negative duration are dropped. */
  lemma {:induction false} FormatNegative(a: nat)
    ensures FormatDuration(0 - a) == if Seconds(a) == 0 then Clock(0, 0, 0) else "-" + Clock(0, 0, Seconds(a))
  {
    TruncOf(a, HOUR);
    TruncOf(a % HOUR, MINUTE);
    TruncOf(a % HOUR % MINUTE, SECOND);
    assert FormatDuration(0 - a) == "" + Part(0 - Seconds(a), 's') == Part(0 - Seconds(a), 's');
    NegativeText(Seconds(a));
  }

  lemma {:induction false} NegativeText(s: nat)
    ensures Part(0 - s, 's') == if s == 0 then Clock(0, 0, 0) else "-" + Clock(0, 0, s)
  {
    ClockText(0, 0, s);
    assert Clock(0, 0, s) == Part(s, 's');
  }

  lemma {:induction false} ParseSigned(c: string, n: nat)
    requires c != "" && IsDigit(c[0]) && ParseUnsigned(c) == Some(n) && n <= MAX64
    ensures ParseDuration(c) == Some(n) && ParseDuration("-" + c) == Some(0 - n)
  {
    assert ("-" + c)[1..] == c;
  }

  /** Parsing a formatted duration gives it back without its part of a second. */
  lemma {:induction false} ParseNonNegative(d: nat)
    requires IsInt64(d)
    ensures ParseDuration(FormatDuration(d)) == Some(d - d % SECOND)
  {
    var n: nat := d - d % SECOND;
    assert n == Hours(d) * HOUR + Minutes(d) * MINUTE + Seconds(d) * SECOND by {
      WholeSeconds(d);
    }
    var c := Clock(Hours(d), Minutes(d), Seconds(d));
    ParseClock(Hours(d), Minutes(d), Seconds(d), n, c);
    assert FormatDuration(d) == c by {
      FormatNonNegative(d);
    }
  }

  /** A duration below an hour, as its seconds, exactly if it has no minutes and no part of a second. */
  lemma {:induction false} SecondsOnly(a: nat) returns (s: nat)
    ensures s == Seconds(a) < 60
    ensures s * SECOND == a <==> (0 - a) % SECOND == 0 && 0 - a > 0 - MINUTE
  {
    s := Seconds(a);
    WholeSeconds(a);
    assert a % SECOND == 0 <==> (0 - a) % SECOND == 0;
    assert a < MINUTE ==> Hours(a) == 0 && Minutes(a) == 0;
  }

  lemma {:induction false} FormatOfNegative(a: nat, s: nat, c: string)
    requires s == Seconds(a) && c == Clock(0, 0, s)
    ensures FormatDuration(0 - a) == if s == 0 then c else "-" + c
  {
    FormatNegative(a);
  }

  /** Of a negative duration only the seconds below a minute come back. */
  lemma {:induction false} ParseNegative(a: nat) returns (n: nat)
    requires IsInt64(0 - a)
    ensures ParseDuration(FormatDuration(0 - a)) == Some(0 - n)
    ensures n == a <==> (0 - a) % SECOND == 0 && 0 - a > 0 - MINUTE
  {
    var s := SecondsOnly(a);
    n := s * SECOND;
    var c := Clock(0, 0, s);
    FormatOfNegative(a, s, c);
    ParseClock(0, 0, s, n, c);
  }

  /** The round trip is exact for whole seconds above minus one minute, and for no other duration. */
  lemma {:induction false} FormatRoundTrip(d: int)
    requires IsInt64(d)
    ensures ParseDuration(FormatDuration(d)) == Some(d) <==> d % SECOND == 0 && d > 0 - MINUTE
  {
    if d < 0 {
      var n := ParseNegative(-d);
    } else {
      RoundTripNonNegative(d);
    }
  }

  lemma {:induction false} RoundTripNonNegative(d: nat)
    requires IsInt64(d)
    ensures ParseDuration(FormatDuration(d)) == Some(d) <==> d % SECOND == 0
  {
    var n: nat := d - d % SECOND;
    assert ParseDuration(FormatDuration(d)) == Some(n) by {
      ParseNonNegative(d);
    }
  }
}
