/** The parser of the UTC timestamps in event logs, "2026-09-24T05:57:02.677Z". */
module Timestamps {
  import opened Options
  import opened Calendar

  const MAX_I64 := 0x7FFF_FFFF_FFFF_FFFF
  const MIN_I64 := -0x8000_0000_0000_0000

  // ---------------------------------------------------------------- pieces of text

  datatype Halves = Halves(before: string, after: string)

  /** The text before and after the first c. */
  function SplitOnce(s: string, c: char): Option<Halves> {
    if s == "" then None
    else if s[0] == c then Some(Halves("", s[1..]))
    else
      var rest := SplitOnce(s[1..], c);
      if rest.None? then None else Some(Halves([s[0]] + rest.value.before, rest.value.after))
  }

  datatype Parts = Parts(first: string, second: string, third: string)

  /** At most three pieces; the third keeps any further c. */
  function SplitInThree(s: string, c: char): Option<Parts> {
    match SplitOnce(s, c)
    case None => None
    case Some(a) =>
      match SplitOnce(a.after, c)
      case None => None
      case Some(b) => Some(Parts(a.before, b.before, b.after))
  }

  predicate IsDigit(c: char) {
    '0' <= c <= '9'
  }

  function Digit(c: char): nat
    requires IsDigit(c)
  {
    (c - '0') as nat
  }

  predicate AllDigits(s: string) {
    forall i :: 0 <= i < |s| ==> IsDigit(s[i])
  }

  function Number(s: string): nat
    requires AllDigits(s)
  {
    if s == "" then 0
    else
      assert IsDigit(s[|s| - 1]);
      Number(s[..|s| - 1]) * 10 + Digit(s[|s| - 1])
  }

  /** An optional sign, then digits; nothing outside 64 bits. */
  function ParseInt(s: string): Option<int> {
    var digits := if s != "" && (s[0] == '-' || s[0] == '+') then s[1..] else s;
    if digits == "" || !AllDigits(digits) then None
    else
      var magnitude: int := Number(digits);
      var n := if s[0] == '-' then -magnitude else magnitude;
      if MIN_I64 <= n <= MAX_I64 then Some(n) else None
  }

  function ParseThree(parts: Option<Parts>): Option<(int, int, int)> {
    if parts.None? then None
    else
      var a, b, c := ParseInt(parts.value.first), ParseInt(parts.value.second), ParseInt(parts.value.third);
      if a.None? || b.None? || c.None? then None else Some((a.value, b.value, c.value))
  }

  /** The first three digits of the fraction, filled up with zeros on the right. */
  function Milliseconds(fraction: string): Option<int> {
    var padded := if |fraction| >= 3 then fraction
                  else if |fraction| == 2 then fraction + "0"
                  else if |fraction| == 1 then fraction + "00"
                  else "000";
    ParseInt(padded[..3])
  }

  /** The checks on the six fields: some have only an upper bound, and the day none that depends on the month. */
  function Checked(date: Option<(int, int, int)>, clock: Option<(int, int, int)>, millis: Option<int>): Option<Instant> {
    if date.None? || clock.None? then None
    else
      var (year, month, day), (hour, minute, second) := date.value, clock.value;
      if !(1 <= month <= 12) || !(1 <= day <= 31) || hour > 23 || minute > 59 || second > 60 || millis.None? then None
      else Some(Instant(Date(year, month, day), hour, minute, second, millis.value))
  }

  /** The fields of a timestamp, if the parser takes it. */
  function Fields(value: string): Option<Instant> {
    if value == "" || value[|value| - 1] != 'Z' then None
    else
      match SplitOnce(value[..|value| - 1], 'T')
      case None => None
      case Some(halves) =>
        var split := SplitOnce(halves.after, '.');
        var clock := if split.Some? then split.value else Halves(halves.after, "0");
        Checked(ParseThree(SplitInThree(halves.before, '-')), ParseThree(SplitInThree(clock.before, ':')), Milliseconds(clock.after))
  }

  function Parse(value: string): Option<int> {
    if Fields(value).None? then None else Some(UnixMs(Fields(value).value))
  }

  // ---------------------------------------------------------------- numbers in text

  /** The last `width` decimal digits of n. */
  function Padded(n: nat, width: nat): (s: string)
    ensures |s| == width
  {
    if width == 0 then "" else Padded(n / 10, width - 1) + ['0' + (n % 10) as char]
  }

  function Power(width: nat): nat {
    if width == 0 then 1 else 10 * Power(width - 1)
  }

  lemma {:induction false} PaddedIsTheNumber(n: nat, width: nat)
    requires n < Power(width)
    ensures AllDigits(Padded(n, width)) && Number(Padded(n, width)) == n
  {
    if width > 0 {
      PaddedIsTheNumber(n / 10, width - 1);
      var s := Padded(n, width);
      assert s[..|s| - 1] == Padded(n / 10, width - 1);
    }
  }

  /** As many digits as width, but for a negative number a sign and as many digits as wide. */
  function Signed(n: int, width: nat, wide: nat): string {
    if n >= 0 then Padded(n, width) else "-" + Padded(-n, wide)
  }

  lemma SignedParses(n: int, width: nat, wide: nat)
    requires width > 0 && wide > 0 && MIN_I64 <= n <= MAX_I64 && (n >= 0 ==> n < Power(width)) && (n < 0 ==> -n < Power(wide))
    ensures ParseInt(Signed(n, width, wide)) == Some(n)
    ensures forall c :: c in Signed(n, width, wide) ==> IsDigit(c) || (c == '-' && n < 0)
  {
    hide Power, ParseInt, Padded, Number;
    if n >= 0 {
      PaddedIsTheNumber(n, width);
      DigitsParse(Padded(n, width));
    } else {
      PaddedIsTheNumber(-n, wide);
      MinusParses(Padded(-n, wide));
    }
  }

  lemma DigitsParse(s: string)
    requires s != "" && AllDigits(s) && Number(s) <= MAX_I64
    ensures ParseInt(s).Some? && ParseInt(s).value == Number(s)
  {
    hide Number;
    assert IsDigit(s[0]);
  }

  lemma MinusParses(s: string)
    requires s != "" && AllDigits(s) && MIN_I64 + Number(s) <= 0
    ensures ParseInt("-" + s).Some? && ParseInt("-" + s).value + Number(s) == 0
  {
    hide Number;
    assert ("-" + s)[1..] == s;
  }

  lemma {:induction false} NumberIsSmall(s: string)
    requires AllDigits(s)
    ensures Number(s) < Power(|s|)
  {
    if s != "" {
      NumberIsSmall(s[..|s| - 1]);
      assert IsDigit(s[|s| - 1]);
    }
  }

  lemma Powers()
    ensures Power(2) == 100 && Power(3) == 1_000 && Power(4) == 10_000 && Power(19) == 10_000_000_000_000_000_000
  {
    assert Power(4) == 10_000 && Power(8) == 100_000_000 && Power(12) == 1_000_000_000_000 && Power(16) == 10_000_000_000_000_000;
  }

  // ---------------------------------------------------------------- which field values are taken

  /** A 64-bit year without a sign, a month and day in range, clock fields with an upper bound only, and a signed fraction. */
  predicate Taken(t: Instant) {
    && 0 <= t.date.year <= MAX_I64 && 1 <= t.date.month <= 12 && 1 <= t.date.day <= 31
    && MIN_I64 <= t.hour <= 23 && MIN_I64 <= t.minute <= 59 && MIN_I64 <= t.second <= 60 && -99 <= t.millis <= 999
  }

  lemma {:induction false} NoneBefore(s: string, c: char)
    requires SplitOnce(s, c).Some?
    ensures c !in SplitOnce(s, c).value.before
  {
    if s[0] != c { NoneBefore(s[1..], c); }
  }

  lemma UnsignedIsNotNegative(s: string)
    requires ParseInt(s).Some? && '-' !in s
    ensures 0 <= ParseInt(s).value <= MAX_I64
  {
    assert s != "" ==> s[0] in s;
  }

  lemma MillisecondsAreShort(fraction: string)
    requires Milliseconds(fraction).Some?
    ensures -99 <= Milliseconds(fraction).value <= 999
  {
    var padded := if |fraction| >= 3 then fraction
                  else if |fraction| == 2 then fraction + "0"
                  else if |fraction| == 1 then fraction + "00"
                  else "000";
    var s := padded[..3];
    Powers();
    if s[0] == '-' || s[0] == '+' { NumberIsSmall(s[1..]); } else { NumberIsSmall(s); }
  }

  lemma FieldsAreTaken(value: string)
    requires Fields(value).Some?
    ensures Taken(Fields(value).value)
  {
    hide SplitOnce, ParseInt, Milliseconds;
    var halves := SplitOnce(value[..|value| - 1], 'T').value;
    var split := SplitOnce(halves.after, '.');
    var clock := if split.Some? then split.value else Halves(halves.after, "0");
    NoneBefore(halves.before, '-');
    UnsignedIsNotNegative(SplitInThree(halves.before, '-').value.first);
    MillisecondsAreShort(clock.after);
    ClockIsInRange(SplitInThree(clock.before, ':').value);
  }

  lemma ClockIsInRange(parts: Parts)
    requires ParseThree(Some(parts)).Some?
    ensures var (h, m, s) := ParseThree(Some(parts)).value; h >= MIN_I64 && m >= MIN_I64 && s >= MIN_I64
  {
  }

  /** The text of any fields that the parser takes: in the usual form wherever that form can say them. */
  function Write(t: Instant): string
    requires Taken(t)
  {
    DateText(t.date) + "T" + (ClockText(t) + "." + Signed(t.millis, 3, 2)) + "Z"
  }

  function YearText(year: nat): string {
    Padded(year, if year <= 9999 then 4 else 19)
  }

  function DateText(d: Date): string
    requires d.year >= 0 && d.month >= 0 && d.day >= 0
  {
    YearText(d.year) + "-" + (Padded(d.month, 2) + "-" + Padded(d.day, 2))
  }

  function ClockText(t: Instant): string {
    Signed(t.hour, 2, 19) + ":" + (Signed(t.minute, 2, 19) + ":" + Signed(t.second, 2, 19))
  }

  lemma {:induction false} SplitsAtTheFirst(a: string, c: char, b: string)
    requires c !in a
    ensures SplitOnce(a + [c] + b, c) == Some(Halves(a, b))
  {
    var s := a + [c] + b;
    if a == "" {
      assert s == [c] + b;
    } else {
      assert s[1..] == a[1..] + [c] + b;
      SplitsAtTheFirst(a[1..], c, b);
      assert [a[0]] + a[1..] == a;
    }
  }

  lemma SplitsInThree(a: string, b: string, d: string, c: char)
    requires c !in a && c !in b
    ensures SplitInThree(a + [c] + (b + [c] + d), c) == Some(Parts(a, b, d))
  {
    hide SplitOnce;
    SplitsAtTheFirst(a, c, b + [c] + d);
    SplitsAtTheFirst(b, c, d);
  }

  lemma DateSplits(d: Date, rest: string)
    requires 0 <= d.year <= MAX_I64 && 1 <= d.month <= 12 && 1 <= d.day <= 31
    ensures SplitOnce(DateText(d) + "T" + rest, 'T') == Some(Halves(DateText(d), rest))
    ensures ParseThree(SplitInThree(DateText(d), '-')) == Some((d.year, d.month, d.day))
  {
    hide Padded, Power, SplitOnce, SplitInThree, ParseInt;
    Powers();
    var width := if d.year <= 9999 then 4 else 19;
    SignedParses(d.year, width, 1);
    SignedParses(d.month, 2, 1);
    SignedParses(d.day, 2, 1);
    SplitsInThree(YearText(d.year), Padded(d.month, 2), Padded(d.day, 2), '-');
    SplitsAtTheFirst(DateText(d), 'T', rest);
  }

  /** The clock fields may be any texts without the separators. */
  lemma ClockSplits(h: string, m: string, s: string, f: string)
    requires ':' !in h && ':' !in m && '.' !in h && '.' !in m && '.' !in s
    ensures SplitOnce(h + ":" + (m + ":" + s) + "." + f, '.') == Some(Halves(h + ":" + (m + ":" + s), f))
    ensures SplitInThree(h + ":" + (m + ":" + s), ':') == Some(Parts(h, m, s))
  {
    hide SplitOnce, SplitInThree;
    SplitsAtTheFirst(h + ":" + (m + ":" + s), '.', f);
    SplitsInThree(h, m, s, ':');
  }

  /** What the parser makes of a date and four clock texts. */
  lemma FieldsOfTexts(d: Date, h: string, m: string, s: string, f: string)
    requires 0 <= d.year <= MAX_I64 && 1 <= d.month <= 12 && 1 <= d.day <= 31
    requires ':' !in h && ':' !in m && '.' !in h && '.' !in m && '.' !in s
    ensures Fields(DateText(d) + "T" + (h + ":" + (m + ":" + s) + "." + f) + "Z")
            == Checked(Some((d.year, d.month, d.day)), ParseThree(Some(Parts(h, m, s))), Milliseconds(f))
  {
    hide SplitOnce, SplitInThree, ParseThree, Milliseconds, DateText;
    var rest := h + ":" + (m + ":" + s) + "." + f;
    DateSplits(d, rest);
    ClockSplits(h, m, s, f);
    var body := DateText(d) + "T" + rest;
    var text := body + "Z";
    assert text[|text| - 1] == 'Z' && text[..|text| - 1] == body;
  }

  lemma MillisecondsOfThree(n: int)
    requires -99 <= n <= 999
    ensures Milliseconds(Signed(n, 3, 2)) == Some(n)
  {
    Powers();
    SignedParses(n, 3, 2);
    var m := Signed(n, 3, 2);
    assert |m| == 3;
    assert m[..3] == m;
  }

  /** Parsing what was written gives back the fields, for all fields that the parser takes. */
  lemma WrittenTimesParse(t: Instant)
    requires Taken(t)
    ensures Fields(Write(t)) == Some(t) && Parse(Write(t)) == Some(UnixMs(t))
  {
    hide Signed, Power, ParseInt, Milliseconds, DateText, Fields, UnixMs;
    Powers();
    SignedParses(t.hour, 2, 19);
    SignedParses(t.minute, 2, 19);
    SignedParses(t.second, 2, 19);
    MillisecondsOfThree(t.millis);
    FieldsOfTexts(t.date, Signed(t.hour, 2, 19), Signed(t.minute, 2, 19), Signed(t.second, 2, 19), Signed(t.millis, 3, 2));
  }

  // ---------------------------------------------------------------- fractions of any length, and none

  lemma {:induction false} NumberOfBoth(a: string, b: string)
    requires AllDigits(a) && AllDigits(b)
    ensures AllDigits(a + b) && Number(a + b) == Number(a) * Power(|b|) + Number(b)
  {
    if b == "" {
      assert a + b == a;
    } else {
      var most := b[..|b| - 1];
      assert (a + b)[..|a + b| - 1] == a + most;
      NumberOfBoth(a, most);
      assert IsDigit(b[|b| - 1]);
      Tenfold(Number(a), Power(|most|), Number(most));
    }
  }

  lemma Tenfold(a: nat, p: nat, n: nat)
    ensures (a * p + n) * 10 == a * (10 * p) + n * 10
  {
  }

  lemma Multiples(a: int, b: int, d: int)
    requires a <= b && d >= 0
    ensures a * d <= b * d
  {
  }

  lemma QuotientIs(x: int, d: int, q: int)
    requires d > 0 && q * d <= x < (q + 1) * d
    ensures x / d == q
  {
    var t := x / d;
    assert t * d <= x < (t + 1) * d;
    if t < q {
      Multiples(t + 1, q, d);
      assert false;
    } else if t > q {
      Multiples(q + 1, t, d);
      assert false;
    }
  }

  /** Digits after the third are cut off: what they add is less than one thousandth. */
  lemma CutAfterThree(high: nat, low: nat, scale: nat)
    requires low < scale
    ensures (high * scale + low) * 1000 / (1000 * scale) == high
  {
    var x, d := (high * scale + low) * 1000, 1000 * scale;
    Associates(high, scale, low);
    QuotientIs(x, d, high);
  }

  lemma Associates(high: nat, scale: nat, low: nat)
    requires low < scale
    ensures high * (1000 * scale) <= (high * scale + low) * 1000 < (high + 1) * (1000 * scale)
  {
    assert high * (1000 * scale) == (high * scale) * 1000;
    assert (high + 1) * (1000 * scale) == (high * scale) * 1000 + 1000 * scale;
  }

  /** However many digits the fraction has, it stands for its thousandths, rounded down. */
  lemma FractionIsThousandths(digits: string)
    requires AllDigits(digits)
    ensures Power(|digits|) > 0 && Milliseconds(digits) == Some(Number(digits) * 1000 / Power(|digits|))
  {
    hide ParseInt, Number, Power, Milliseconds;
    PowerIsPositive(|digits|);
    if |digits| <= 3 { ShortFraction(digits); } else { LongFraction(digits); }
  }

  lemma LongFraction(digits: string)
    requires AllDigits(digits) && |digits| > 3
    ensures Power(|digits|) > 0 && Milliseconds(digits) == Some(Number(digits) * 1000 / Power(|digits|))
  {
    hide ParseInt, Number, Power;
    var high, low := digits[..3], digits[3..];
    assert digits == high + low;
    NumberOfBoth(high, low);
    PowerOfThreeMore(|low|);
    NumberIsSmall(low);
    NumberIsSmall(high);
    Powers();
    DigitsParse(high);
    CutAfterThree(Number(high), Number(low), Power(|low|));
  }

  lemma {:induction false} PowerIsPositive(n: nat)
    ensures Power(n) > 0
  {
    if n > 0 { PowerIsPositive(n - 1); }
  }

  lemma PowerOfThreeMore(n: nat)
    ensures Power(n + 3) == 1000 * Power(n)
  {
    assert Power(n + 3) == 10 * Power(n + 2) && Power(n + 2) == 10 * Power(n + 1) && Power(n + 1) == 10 * Power(n);
  }

  lemma ShortFraction(digits: string)
    requires AllDigits(digits) && |digits| <= 3
    ensures Power(|digits|) > 0 && Milliseconds(digits) == Some(Number(digits) * 1000 / Power(|digits|))
  {
    hide ParseInt, Number, Power, Milliseconds;
    SmallPowers();
    var zeros := if |digits| == 0 then "000" else if |digits| == 1 then "00" else if |digits| == 2 then "0" else "";
    NumberOfZeros(zeros);
    NumberOfBoth(digits, zeros);
    NumberIsSmall(digits + zeros);
    DigitsParse(digits + zeros);
    PaddedIsParsed(digits, zeros);
  }

  lemma SmallPowers()
    ensures Power(0) == 1 && Power(1) == 10 && Power(2) == 100 && Power(3) == 1_000
  {
    Powers();
  }

  lemma PaddedIsParsed(digits: string, zeros: string)
    requires |digits| + |zeros| == 3 && zeros in {"", "0", "00", "000"}
    ensures Milliseconds(digits) == ParseInt(digits + zeros)
  {
    hide ParseInt;
    assert (digits + zeros)[..3] == digits + zeros;
    assert digits + "" == digits && "" + zeros == zeros;
    assert |zeros| == 0 ==> zeros == "";
    assert |digits| == 0 ==> digits == "";
  }

  lemma NumberOfZeros(zeros: string)
    requires zeros in {"", "0", "00", "000"}
    ensures AllDigits(zeros) && Number(zeros) == 0
  {
    assert "0"[..0] == "" && "00"[..1] == "0" && "000"[..2] == "00";
  }

  /** A timestamp whose fraction has any number of digits, or that has none at all. */
  lemma AnyFractionParses(t: Instant, digits: string)
    requires Taken(t) && AllDigits(digits)
    ensures Power(|digits|) > 0
    ensures Fields(DateText(t.date) + "T" + (ClockText(t) + "." + digits) + "Z") == Some(t.(millis := Number(digits) * 1000 / Power(|digits|)))
    ensures Fields(DateText(t.date) + "T" + ClockText(t) + "Z") == Some(t.(millis := 0))
  {
    hide Signed, Power, ParseInt, Milliseconds, DateText, Fields, UnixMs, Number;
    Powers();
    SignedParses(t.hour, 2, 19);
    SignedParses(t.minute, 2, 19);
    SignedParses(t.second, 2, 19);
    FractionIsThousandths(digits);
    FieldsOfTexts(t.date, Signed(t.hour, 2, 19), Signed(t.minute, 2, 19), Signed(t.second, 2, 19), digits);
    FieldsWithoutFraction(t.date, Signed(t.hour, 2, 19), Signed(t.minute, 2, 19), Signed(t.second, 2, 19));
  }

  lemma FieldsWithoutFraction(d: Date, h: string, m: string, s: string)
    requires 0 <= d.year <= MAX_I64 && 1 <= d.month <= 12 && 1 <= d.day <= 31
    requires ':' !in h && ':' !in m && '.' !in h && '.' !in m && '.' !in s
    ensures Fields(DateText(d) + "T" + (h + ":" + (m + ":" + s)) + "Z")
            == Checked(Some((d.year, d.month, d.day)), ParseThree(Some(Parts(h, m, s))), Some(0))
  {
    hide SplitOnce, SplitInThree, ParseThree, Milliseconds, DateText, Number, ParseInt;
    var rest := h + ":" + (m + ":" + s);
    DateSplits(d, rest);
    SplitsInThree(h, m, s, ':');
    NothingToSplit(rest, '.');
    var body := DateText(d) + "T" + rest;
    var text := body + "Z";
    assert text[|text| - 1] == 'Z' && text[..|text| - 1] == body;
    NumberOfZeros("0");
    Powers();
    FractionIsThousandths("0");
  }

  lemma {:induction false} NothingToSplit(s: string, c: char)
    requires c !in s
    ensures SplitOnce(s, c).None?
  {
    if s != "" {
      assert s[0] in s && forall x :: x in s[1..] ==> x in s;
      NothingToSplit(s[1..], c);
    }
  }

  /** Some text has these fields exactly if they are within the parser's bounds: it checks nothing else. */
  lemma ParserTakesExactly(t: Instant)
    ensures (exists value :: Fields(value) == Some(t)) <==> Taken(t)
  {
    hide Fields, Taken, Write;
    if Taken(t) { WrittenTimesParse(t); }
    forall value | Fields(value) == Some(t) ensures Taken(t) {
      FieldsAreTaken(value);
    }
  }

  /** Times parsed from any texts with valid fields are ordered exactly as their date and time fields. */
  lemma ParsedTimesKeepTheirOrder(a: string, b: string)
    requires Fields(a).Some? && Fields(b).Some? && ValidInstant(Fields(a).value) && ValidInstant(Fields(b).value)
    ensures Parse(a).Some? && Parse(b).Some?
    ensures Parse(a).value < Parse(b).value <==> EarlierInstant(Fields(a).value, Fields(b).value)
    ensures Parse(a) == Parse(b) <==> Fields(a) == Fields(b)
  {
    hide Fields, UnixMs, EarlierInstant;
    InstantsKeepTheirOrder(Fields(a).value, Fields(b).value);
  }

  /**
   The fields of a parsed text order it rightly among the valid times exactly if they are valid themselves. All
   others, such as day 31 of a short month, second 60 or a negative hour, stand for a moment that has other fields.
   */
  lemma OrderIsRightExactlyForValid(value: string)
    requires Fields(value).Some?
    ensures var t := Fields(value).value; ValidInstant(t) <==> OrderedAmongValid(t)
  {
    hide Fields;
    FieldsAreTaken(value);
    ValidExactlyIfOrdered(Fields(value).value);
  }

  // ---------------------------------------------------------------- instances

  /** A day past the end of its month is let through, and read as that many days into the next month. */
  lemma PastTheEndOfTheMonth(t: Instant, over: int)
    requires Taken(t) && t.date.month < 12 && over >= 1 && t.date.day == MonthLength(t.date.year, t.date.month) + over
    ensures Parse(Write(t)) == Some(UnixMs(t.(date := Date(t.date.year, t.date.month + 1, over))))
  {
    hide Fields, Write, UnixMs, MonthLength;
    WrittenTimesParse(t);
    DaysRunOver(t, over);
  }

  lemma DaysRunOver(t: Instant, over: int)
    requires 1 <= t.date.month < 12 && t.date.day == MonthLength(t.date.year, t.date.month) + over
    ensures UnixMs(t) == UnixMs(t.(date := Date(t.date.year, t.date.month + 1, over)))
  {
    hide ClosedDays, YearStart;
    ClosedFormCounts(t.date.year, t.date.month, t.date.day);
    ClosedFormCounts(t.date.year, t.date.month + 1, over);
  }

  /** An hour with a minus sign is let through, and read as an hour of the day before. */
  lemma SignedHourIsTaken(d: Date)
    requires ValidDate(d) && 0 <= d.year <= MAX_I64
    ensures Parse(DateText(d) + "T" + ("-1" + ":" + ("00" + ":" + "00") + "." + "000") + "Z") == Some(UnixMs(Instant(d, -1, 0, 0, 0)))
    ensures UnixMs(Instant(d, -1, 0, 0, 0)) == DayNumber(d) * 86_400_000 - 3_600_000
  {
    hide DateText, Fields, ClosedDays, DayNumber;
    FieldsOfTexts(d, "-1", "00", "00", "000");
    assert "-1"[1..] == "1" && "1"[..0] == "" && "00"[..1] == "0" && "0"[..0] == "" && "000"[..3] == "000" && "000"[..2] == "00";
    assert Number("1") == 1 && Number("0") == 0 && Number("00") == 0 && Number("000") == 0;
    ClosedFormCounts(d.year, d.month, d.day);
  }
}
