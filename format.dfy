/** The formatters of util.py: `format_time` (a duration in seconds written
    out in words), `readable_storage` (a byte count in its unit tier) and
    `format_date` (an epoch timestamp as local date text). */
module Format {
  import opened Text

  // ---------------------------------------------------------------------
  // format_time

  /** The units `format_time` writes, largest first. */
  datatype Unit = Day | Hour | Minute | Second

  function UnitName(u: Unit): string
  {
    match u
    case Day => "day"
    case Hour => "hour"
    case Minute => "minute"
    case Second => "second"
  }

  function UnitSeconds(u: Unit): nat
  {
    match u
    case Day => 86400
    case Hour => 3600
    case Minute => 60
    case Second => 1
  }

  /** One shown component of a duration: a value and its unit. */
  datatype Part = Part(value: int, unit: Unit)

  function Abs(a: int): nat
  {
    if a < 0 then -a else a
  }

  /** `math.trunc(a / b)` for a positive divisor: the quotient rounded
      toward zero (Dafny's `/` rounds down), so its magnitude is the whole
      number of times b goes into the magnitude of a and its sign is a's.
      The quotient is exact; Python's float quotient agrees while it is
      exact in a double. */
  function TruncDiv(a: int, b: int): (q: int)
    requires b > 0
    ensures Abs(q) == Abs(a) / b
    ensures q > 0 ==> a > 0
    ensures q < 0 ==> a < 0
  {
    if a >= 0 then a / b else -((-a) / b)
  }

  /** The parts `format_time(s)` shows, in order: the days, hours and
      minutes once the duration reaches a day, an hour and a minute (so a
      zero hour or minute is still shown after a larger unit), and the
      seconds when they are not zero or the whole duration is.  A negative
      duration shows at most its seconds, taken modulo 60 as Python's `%`
      does. */
  function Components(s: int): seq<Part>
  {
    Days(s) + Hours(s) + Minutes(s) + Seconds(s)
  }

  function Days(s: int): seq<Part> { if s >= 86400 then [Part(s / 86400, Day)] else [] }
  function Hours(s: int): seq<Part> { if s >= 3600 then [Part(s / 3600 % 24, Hour)] else [] }
  function Minutes(s: int): seq<Part> { if s >= 60 then [Part(s / 60 % 60, Minute)] else [] }
  function Seconds(s: int): seq<Part> { if s % 60 != 0 || s == 0 then [Part(s % 60, Second)] else [] }

  function Plural(n: int): string
  {
    if n == 1 then "" else "s"
  }

  /** The unit as the f-strings spell it after the value. */
  function Label(u: Unit): string
  {
    " " + UnitName(u)
  }

  lemma LabelTexts()
    ensures Label(Day) == " day" && Label(Hour) == " hour"
    ensures Label(Minute) == " minute" && Label(Second) == " second"
  {
  }

  /** One part as the f-strings write it: the value, the unit, an `s` unless
      the value is 1, and a trailing space after every unit but the
      seconds. */
  function PartText(p: Part): string
  {
    if p.unit == Second then IntToString(p.value) + Label(p.unit) + Plural(p.value)
    else IntToString(p.value) + Label(p.unit) + Plural(p.value) + " "
  }

  function Words(ps: seq<Part>): string
  {
    if ps == [] then "" else Words(ps[..|ps| - 1]) + PartText(ps[|ps| - 1])
  }

  /** The text of `format_time(s)`. */
  function TimeText(s: int): string
  {
    Words(Components(s))
  }

  /** The truncated quotients `format_time` computes step by step are the
      whole minutes, hours and days of a non-negative duration, and none of
      them is positive for a negative one. */
  lemma Ladder(s: int)
    ensures var m := TruncDiv(s, 60); var h := TruncDiv(m, 60); var d := TruncDiv(h, 24);
      && (m > 0 <==> s >= 60) && (h > 0 <==> s >= 3600) && (d > 0 <==> s >= 86400)
      && (s >= 0 ==> m == s / 60 && h == s / 3600 && d == s / 86400)
  {
    if s >= 0 {
      assert s / 60 / 60 == s / 3600;
      assert s / 3600 / 24 == s / 86400;
    }
  }

  lemma WordsStep(ps: seq<Part>, p: Part)
    ensures Words(ps + [p]) == Words(ps) + PartText(p)
  {
    assert (ps + [p])[..|ps|] == ps;
  }

  /** `format_time(totalSeconds)`: appends one f-string per unit that is
      shown. */
  method FormatTime(totalSeconds: int) returns (time: string)
    ensures time == TimeText(totalSeconds)
  {
    ghost var s := totalSeconds;
    time := "";
    var totalMinutes := TruncDiv(totalSeconds, 60);
    var totalHours := TruncDiv(totalMinutes, 60);
    var totalDays := TruncDiv(totalHours, 24);
    Ladder(totalSeconds);
    LabelTexts();

    if totalDays > 0 {
      var days := totalDays;
      var daysPlural := if days == 1 then "" else "s";
      var piece := IntToString(days) + " day" + daysPlural + " ";
      Append(time, [], piece, Part(days, Day));
      time := time + piece;
    }
    assert time == Words(Days(s));

    if totalHours > 0 {
      var hours := totalHours % 24;
      var hoursPlural := if hours == 1 then "" else "s";
      var piece := IntToString(hours) + " hour" + hoursPlural + " ";
      Append(time, Days(s), piece, Part(hours, Hour));
      time := time + piece;
    }
    assert time == Words(Days(s) + Hours(s));

    if totalMinutes > 0 {
      var minutes := totalMinutes % 60;
      var minutesPlural := if minutes == 1 then "" else "s";
      var piece := IntToString(minutes) + " minute" + minutesPlural + " ";
      Append(time, Days(s) + Hours(s), piece, Part(minutes, Minute));
      time := time + piece;
    }
    assert time == Words(Days(s) + Hours(s) + Minutes(s));

    var seconds := totalSeconds % 60;
    if seconds > 0 || totalSeconds == 0 {
      var secondsPlural := if seconds == 1 then "" else "s";
      var piece := IntToString(seconds) + " second" + secondsPlural;
      Append(time, Days(s) + Hours(s) + Minutes(s), piece, Part(seconds, Second));
      time := time + piece;
    } else {
      assert Days(s) + Hours(s) + Minutes(s) + Seconds(s) == Days(s) + Hours(s) + Minutes(s);
    }
    assert time == Words(Days(s) + Hours(s) + Minutes(s) + Seconds(s));
  }

  /** Appending the f-string of a part to the text of the parts before it
      gives the text of all of them. */
  lemma Append(time: string, shown: seq<Part>, piece: string, p: Part)
    requires time == Words(shown)
    requires piece == PartText(p)
    ensures time + piece == Words(shown + [p])
  {
    WordsStep(shown, p);
  }

  /** What the shown values are worth, in seconds. */
  function Total(ps: seq<Part>): int
  {
    if ps == [] then 0 else Total(ps[..|ps| - 1]) + Worth(ps[|ps| - 1])
  }

  /** The seconds one part stands for. */
  function Worth(p: Part): int
  {
    match p.unit
    case Day => p.value * 86400
    case Hour => p.value * 3600
    case Minute => p.value * 60
    case Second => p.value
  }

  /** How many of a unit make one of the next larger unit. */
  function Span(u: Unit): nat
  {
    match u
    case Day => 0
    case Hour => 24
    case Minute => 60
    case Second => 60
  }

  /** For a non-negative duration the shown values are worth the duration
      in total. */
  lemma Recompose(s: int)
    requires s >= 0
    ensures Total(Components(s)) == s
  {
    Decompose(s);
    var ds, hs, ms, ss := Days(s), Hours(s), Minutes(s), Seconds(s);
    TotalAppend(ds, hs);
    TotalAppend(ds + hs, ms);
    TotalAppend(ds + hs + ms, ss);
    TotalOne(ds);
    TotalOne(hs);
    TotalOne(ms);
    TotalOne(ss);
  }

  /** Days are shown only when there is at least one, and every other shown
      value is below the count of its unit in the next larger one. */
  lemma PartsBounded(s: int)
    requires s >= 0
    ensures forall p :: p in Components(s) ==>
      if p.unit == Day then p.value >= 1 else 0 <= p.value < Span(p.unit)
  {
    var ds, hs, ms, ss := Days(s), Hours(s), Minutes(s), Seconds(s);
    forall p | p in Components(s)
      ensures if p.unit == Day then p.value >= 1 else 0 <= p.value < Span(p.unit)
    {
      assert p in ds || p in hs || p in ms || p in ss;
    }
  }

  /** A duration is its whole days, its hours, minutes and seconds past
      them; each of the last three is zero when the duration is below that
      unit's next larger one. */
  lemma Decompose(s: int)
    requires s >= 0
    ensures s == s / 86400 * 86400 + s / 3600 % 24 * 3600 + s / 60 % 60 * 60 + s % 60
    ensures s < 86400 ==> s / 86400 == 0
    ensures s < 3600 ==> s / 3600 % 24 == 0
    ensures s < 60 ==> s / 60 % 60 == 0 && s % 60 == s
  {
    assert s == 60 * (s / 60) + s % 60;
    assert s / 60 == 60 * (s / 3600) + s / 60 % 60;
    assert s / 3600 == 24 * (s / 86400) + s / 3600 % 24;
  }

  lemma TotalOne(ps: seq<Part>)
    requires |ps| <= 1
    ensures Total(ps) == if ps == [] then 0 else Worth(ps[0])
  {
    if ps != [] {
      assert ps[..0] == [];
    }
  }

  lemma {:induction false} TotalAppend(a: seq<Part>, b: seq<Part>)
    requires |b| <= 1
    ensures Total(a + b) == Total(a) + Total(b)
  {
    if b != [] {
      assert (a + b)[..|a|] == a;
    } else {
      assert a + b == a;
    }
  }

  lemma SmallNumbers()
    ensures IntToString(0) == "0" && IntToString(1) == "1" && IntToString(59) == "59"
  {
    assert NatToString(59) == NatToString(5) + [DigitChar(9)];
  }

  /** The text of a seconds part, as literal text: no trailing space, and
      the singular only for 1. */
  lemma SecondTexts()
    ensures PartText(Part(0, Second)) == "0 seconds"
    ensures PartText(Part(59, Second)) == "59 seconds"
    ensures PartText(Part(1, Second)) == "1 second"
  {
    SmallNumbers();
  }

  /** The text of a larger unit's part, as literal text: the separator
      comes after the unit. */
  lemma UnitTexts()
    ensures PartText(Part(1, Minute)) == "1 minute "
    ensures PartText(Part(0, Minute)) == "0 minutes "
    ensures PartText(Part(1, Hour)) == "1 hour "
    ensures PartText(Part(0, Hour)) == "0 hours "
    ensures PartText(Part(1, Day)) == "1 day "
  {
    SmallNumbers();
  }

  lemma WordsOfTwo(a: Part, b: Part)
    ensures Words([a]) == PartText(a)
    ensures Words([a, b]) == PartText(a) + PartText(b)
  {
    WordsStep([], a);
    assert [] + [a] == [a];
    WordsStep([a], b);
    assert [a] + [b] == [a, b];
  }

  lemma WordsOfThree(a: Part, b: Part, c: Part)
    ensures Words([a, b, c]) == PartText(a) + PartText(b) + PartText(c)
  {
    WordsOfTwo(a, b);
    WordsStep([a, b], c);
    assert [a, b] + [c] == [a, b, c];
  }

  lemma WordsOfFour(a: Part, b: Part, c: Part, d: Part)
    ensures Words([a, b, c, d]) == PartText(a) + PartText(b) + PartText(c) + PartText(d)
  {
    WordsOfThree(a, b, c);
    WordsStep([a, b, c], d);
    assert [a, b, c] + [d] == [a, b, c, d];
  }

  lemma JoinedMinuteAndSecond()
    ensures "1 minute " + "1 second" == "1 minute 1 second"
  {
  }

  lemma JoinedWholeDay()
    ensures "1 day " + "0 hours " + "0 minutes " == "1 day 0 hours 0 minutes "
  {
  }

  lemma JoinedOneOfEach()
    ensures "1 day " + "1 hour " + "1 minute " + "1 second" == "1 day 1 hour 1 minute 1 second"
  {
  }

  /** A duration of zero reads "0 seconds". */
  lemma ZeroSeconds(s: int)
    requires s == 0
    ensures TimeText(s) == "0 seconds"
  {
    assert Components(s) == [Part(0, Second)];
    WordsOfTwo(Part(0, Second), Part(0, Second));
    SecondTexts();
  }

  /** A value of 1 takes the singular: 61 seconds read "1 minute 1 second". */
  lemma MinuteAndSecond(s: int)
    requires s == 61
    ensures TimeText(s) == "1 minute 1 second"
  {
    var m, sec := Part(1, Minute), Part(1, Second);
    assert Components(s) == [m, sec];
    WordsOfTwo(m, sec);
    assert PartText(m) == "1 minute " by { UnitTexts(); }
    assert PartText(sec) == "1 second" by { SecondTexts(); }
    JoinedMinuteAndSecond();
  }

  /** Once a larger unit is shown, zero hours and minutes are shown too, and
      the text then ends in a space: one day reads "1 day 0 hours 0 minutes ". */
  lemma WholeDay(s: int)
    requires s == 86400
    ensures TimeText(s) == "1 day 0 hours 0 minutes "
  {
    var d, h, m := Part(1, Day), Part(0, Hour), Part(0, Minute);
    assert Components(s) == [d, h, m];
    WordsOfThree(d, h, m);
    UnitTexts();
    assert TimeText(s) == "1 day " + "0 hours " + "0 minutes ";
    JoinedWholeDay();
  }

  /** 90061 seconds read "1 day 1 hour 1 minute 1 second". */
  lemma OneOfEach(s: int)
    requires s == 90061
    ensures TimeText(s) == "1 day 1 hour 1 minute 1 second"
  {
    var d, h, m, sec := Part(1, Day), Part(1, Hour), Part(1, Minute), Part(1, Second);
    assert Components(s) == [d, h, m, sec];
    WordsOfFour(d, h, m, sec);
    UnitTexts();
    assert PartText(sec) == "1 second" by { SecondTexts(); }
    assert TimeText(s) == "1 day " + "1 hour " + "1 minute " + "1 second";
    JoinedOneOfEach();
  }

  /** A negative duration is written as its seconds modulo 60: -1 reads
      "59 seconds". */
  lemma MinusOne(s: int)
    requires s == -1
    ensures TimeText(s) == "59 seconds"
  {
    assert Components(s) == [Part(59, Second)];
    WordsOfTwo(Part(59, Second), Part(59, Second));
    SecondTexts();
  }

  // ---------------------------------------------------------------------
  // readable_storage

  datatype Tier = GB | MB | KB | B

  function TierName(t: Tier): string
  {
    match t
    case GB => "GB"
    case MB => "MB"
    case KB => "KB"
    case B => "B"
  }

  /** The bytes in one unit of a tier: `1.074e+9`, `1.049e+6` and `1024`. */
  function Divisor(t: Tier): real
  {
    match t
    case GB => 1074000000.0
    case MB => 1049000.0
    case KB => 1024.0
    case B => 1.0
  }

  /** The tier `readable_storage` picks, by integer thresholds: the first of
      GB, MB and KB of which the count makes at least one unit, else B. */
  function StorageTier(bytes: int): Tier
  {
    if bytes >= 1074000000 then GB
    else if bytes >= 1049000 then MB
    else if bytes >= 1024 then KB
    else B
  }

  /** The text `readable_storage(bytes)` returns: the byte count itself in
      the B tier, otherwise the rounded size in the tier's unit. */
  function StorageText(bytes: int, rounded: real -> string): string
  {
    var t := StorageTier(bytes);
    if t == B then IntToString(bytes) + " B" else rounded(bytes as real / Divisor(t)) + " " + TierName(t)
  }

  /** `readable_storage(bytes)`.  `rounded` stands for `str(round(x, 2))` of
      a float.  The cascade of float comparisons picks the tier of the
      integer thresholds. */
  method ReadableStorage(bytes: int, rounded: real -> string) returns (text: string)
    ensures text == StorageText(bytes, rounded)
  {
    var unit := "GB";
    var size := bytes as real / 1074000000.0;
    if size < 1.0 {
      unit := "MB";
      size := bytes as real / 1049000.0;
    }
    if size < 1.0 {
      unit := "KB";
      size := bytes as real / 1024.0;
    }
    if size < 1.0 {
      unit := "B";
      // `size = bytes` is an int, which `round(size, 2)` leaves an int
      text := IntToString(bytes) + " " + unit;
    } else {
      text := rounded(size) + " " + unit;
    }
  }

  /** The scaled size shown is at least one unit of the chosen tier and
      below one unit of every larger tier. */
  lemma TierScale(bytes: int)
    ensures var t := StorageTier(bytes);
      && (t != B ==> bytes as real / Divisor(t) >= 1.0)
      && (t != GB ==> bytes as real / Divisor(GB) < 1.0)
      && (t == KB || t == B ==> bytes as real / Divisor(MB) < 1.0)
      && (t == B ==> bytes as real / Divisor(KB) < 1.0)
  {
  }

  /** A gibibyte (1073741824 bytes) is below 1.074e9 and so is shown in MB;
      a mebibyte (1048576 bytes) is below 1.049e6 and so is shown in KB;
      500 bytes are shown as "500 B". */
  lemma TierExamples(gib: int, mib: int, small: int, rounded: real -> string)
    requires gib == 1073741824 && mib == 1048576 && small == 500
    ensures StorageText(gib, rounded) == rounded(1073741824.0 / 1049000.0) + " MB"
    ensures StorageText(mib, rounded) == rounded(1048576.0 / 1024.0) + " KB"
    ensures StorageText(small, rounded) == "500 B"
  {
    assert NatToString(500) == NatToString(50) + [DigitChar(0)];
    assert NatToString(50) == NatToString(5) + [DigitChar(0)];
  }

  // ---------------------------------------------------------------------
  // format_date

  /** `format_date(timestamp)`: the zero timestamp becomes the empty string;
      any other is formatted by `localTime`, which stands for
      `datetime.fromtimestamp(t).strftime('%Y/%m/%d %H:%M:%S')`. */
  function FormatDate(timestamp: int, localTime: int -> string): (r: string)
    ensures timestamp == 0 ==> r == ""
    ensures timestamp != 0 ==> r == localTime(timestamp)
  {
    if timestamp == 0 then "" else localTime(timestamp)
  }
}
