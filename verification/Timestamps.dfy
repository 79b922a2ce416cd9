/**
 The time stamp of a privileged request: printed by the agent with `strftime`,
 checked by the daemon with `strptime`, both with `%Y-%m-%dT%H:%M:%SZ`.
 */
module Timestamps {
  import opened Options
  import opened CanonicalText

  /** A time broken down as `gmtime_r` does. */
  datatype Time = Time(year: nat, month: nat, day: nat, hour: nat, minute: nat, second: nat)

  /** A time of the agent's clock, in years of four digits. */
  predicate ValidTime(t: Time) {
    1000 <= t.year <= 9999 && 1 <= t.month <= 12 && 1 <= t.day <= 31 && t.hour <= 23 && t.minute <= 59 && t.second <= 60
  }

  /** Four digits for the year and two for each other field. */
  predicate Stampable(t: Time) {
    1000 <= t.year <= 9999 && t.month < 100 && t.day < 100 && t.hour < 100 && t.minute < 100 && t.second < 100
  }

  function TwoDigits(n: nat): string
    requires n < 100
  {
    [Digit(n / 10), Digit(n % 10)]
  }

  /** A field of two digits and what follows it. */
  function Field(n: nat, c: char, rest: string): string
    requires n < 100
  {
    TwoDigits(n) + ([c] + rest)
  }

  function IsoTimeThen(t: Time, rest: string): string
    requires Stampable(t)
  {
    TwoDigits(t.year / 100)
    + Field(t.year % 100, '-', Field(t.month, '-', Field(t.day, 'T', Field(t.hour, ':',
            Field(t.minute, ':', Field(t.second, 'Z', rest))))))
  }

  /** `BuildIsoTimestamp`. */
  function IsoTime(t: Time): string
    requires Stampable(t)
  {
    IsoTimeThen(t, "")
  }

  // `strptime`

  function SkipSpaces(s: string): string { if s != "" && s[0] == ' ' then SkipSpaces(s[1..]) else s }

  /** Digits are taken while the value can still stay within the bound. */
  function TakeDigits(s: string, value: nat, left: nat, high: nat): (nat, string)
    decreases left
  {
    if left > 0 && value * 10 <= high && s != "" && IsDigit(s[0]) then
      TakeDigits(s[1..], value * 10 + (s[0] as int - '0' as int), left - 1, high)
    else (value, s)
  }

  /** A number between the bounds and the character behind it, and what follows. */
  function NumberThen(s: string, low: nat, high: nat, width: nat, c: char): Option<(nat, string)> {
    var t := SkipSpaces(s);
    if t == "" || !IsDigit(t[0]) then None
    else
      var (value, rest) := TakeDigits(t, 0, width, high);
      if low <= value <= high && rest != "" && rest[0] == c then Some((value, rest[1..])) else None
  }

  /** `parse_basic_timestamp`: every field in range and nothing left over. */
  function ParseTime(s: string): Option<Time> {
    match NumberThen(s, 0, 9999, 4, '-')
    case None => None
    case Some((year, s)) =>
      match NumberThen(s, 1, 12, 2, '-')
      case None => None
      case Some((month, s)) =>
        match NumberThen(s, 1, 31, 2, 'T')
        case None => None
        case Some((day, s)) => ParseClock(year, month, day, s)
  }

  function ParseClock(year: nat, month: nat, day: nat, s: string): Option<Time> {
    match NumberThen(s, 0, 23, 2, ':')
    case None => None
    case Some((hour, s)) =>
      match NumberThen(s, 0, 59, 2, ':')
      case None => None
      case Some((minute, s)) =>
        match NumberThen(s, 0, 61, 2, 'Z')
        case None => None
        case Some((second, s)) => if s == "" then Some(Time(year, month, day, hour, minute, second)) else None
  }

  predicate ParsesTime(s: string) { ParseTime(s).Some? }

  // What the daemon makes of a printed time

  lemma DigitValue(d: nat)
    requires d < 10
    ensures Digit(d) as int - '0' as int == d && Digit(d) != ' '
  {
  }

  lemma TakeOne(d: nat, rest: string, value: nat, left: nat, high: nat)
    requires d < 10 && left > 0 && value * 10 <= high
    ensures TakeDigits([Digit(d)] + rest, value, left, high) == TakeDigits(rest, value * 10 + d, left - 1, high)
  {
    DigitValue(d);
    assert ([Digit(d)] + rest)[1..] == rest;
  }

  /** Two digits are taken together, unless the first already exceeds the bound. */
  lemma TakeTwo(n: nat, rest: string, value: nat, left: nat, high: nat)
    requires n < 100 && left >= 2 && value * 10 <= high
    ensures TakeDigits(TwoDigits(n) + rest, value, left, high)
            == if (value * 10 + n / 10) * 10 <= high then TakeDigits(rest, value * 100 + n, left - 2, high)
               else (value * 10 + n / 10, [Digit(n % 10)] + rest)
  {
    var a, b := n / 10, n % 10;
    assert TwoDigits(n) + rest == [Digit(a)] + ([Digit(b)] + rest);
    TakeOne(a, [Digit(b)] + rest, value, left, high);
    if (value * 10 + a) * 10 <= high { TakeOne(b, rest, value * 10 + a, left - 1, high); }
  }

  lemma StartsWithDigit(n: nat, rest: string)
    requires n < 100
    ensures var s := TwoDigits(n) + rest; SkipSpaces(s) == s && s != "" && IsDigit(s[0])
  {
    DigitValue(n / 10);
  }

  /** A field of two digits is read exactly if it is in range. */
  lemma FieldRead(n: nat, c: char, rest: string, low: nat, high: nat)
    requires n < 100 && !IsDigit(c)
    ensures NumberThen(Field(n, c, rest), low, high, 2, c) == if low <= n <= high then Some((n, rest)) else None
  {
    StartsWithDigit(n, [c] + rest);
    TakeTwo(n, [c] + rest, 0, 2, high);
    assert ([c] + rest)[1..] == rest;
  }

  /** Blanks in front of a number, and a missing leading zero, do not matter. */
  lemma LooseFields(s: string, d: nat, c: char, rest: string, low: nat, high: nat)
    requires d < 10 && !IsDigit(c)
    ensures NumberThen(" " + s, low, high, 2, c) == NumberThen(s, low, high, 2, c)
    ensures NumberThen([Digit(d)] + ([c] + rest), low, high, 2, c) == if low <= d <= high then Some((d, rest)) else None
  {
    assert (" " + s)[1..] == s;
    DigitValue(d);
    TakeOne(d, [c] + rest, 0, 2, high);
    assert ([c] + rest)[1..] == rest;
  }

  lemma YearRead(y: nat, rest: string)
    requires 1000 <= y <= 9999
    ensures NumberThen(TwoDigits(y / 100) + Field(y % 100, '-', rest), 0, 9999, 4, '-') == Some((y, rest))
  {
    StartsWithDigit(y / 100, Field(y % 100, '-', rest));
    TakeTwo(y / 100, Field(y % 100, '-', rest), 0, 4, 9999);
    TakeTwo(y % 100, ['-'] + rest, y / 100, 2, 9999);
    assert (['-'] + rest)[1..] == rest;
  }

  /** The fields the daemon accepts; it does not ask how long a month is. */
  predicate InRange(t: Time) {
    1 <= t.month <= 12 && 1 <= t.day <= 31 && t.hour <= 23 && t.minute <= 59 && t.second <= 61
  }

  lemma ClockRead(t: Time, rest: string)
    requires Stampable(t)
    ensures ParseClock(t.year, t.month, t.day, Field(t.hour, ':', Field(t.minute, ':', Field(t.second, 'Z', rest))))
            == if t.hour <= 23 && t.minute <= 59 && t.second <= 61 && rest == "" then Some(t) else None
  {
    FieldRead(t.hour, ':', Field(t.minute, ':', Field(t.second, 'Z', rest)), 0, 23);
    FieldRead(t.minute, ':', Field(t.second, 'Z', rest), 0, 59);
    FieldRead(t.second, 'Z', rest, 0, 61);
  }

  /**
   Every text of the printed form is read back as the time it was printed from,
   exactly if its fields are in range and nothing follows; otherwise it is refused.
   */
  lemma StampRead(t: Time, rest: string)
    requires Stampable(t)
    ensures ParseTime(IsoTimeThen(t, rest)) == if InRange(t) && rest == "" then Some(t) else None
  {
    var clock := Field(t.hour, ':', Field(t.minute, ':', Field(t.second, 'Z', rest)));
    YearRead(t.year, Field(t.month, '-', Field(t.day, 'T', clock)));
    FieldRead(t.month, '-', Field(t.day, 'T', clock), 1, 12);
    FieldRead(t.day, 'T', clock, 1, 31);
    ClockRead(t, rest);
  }

  /** Every time stamp the agent can print is accepted, as the time it stands for. */
  lemma AgentStampParses(t: Time)
    requires ValidTime(t)
    ensures ParseTime(IsoTime(t)) == Some(t)
  {
    StampRead(t, "");
  }
}
