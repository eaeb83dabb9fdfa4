/**
 * The two keys the poll cycle derives from a clock reading with moment's
 * default English locale:
 *   - the recurring weekly slot key, format "dddd, HH:mm" ("Monday, 09:15"),
 *     the primary key of the `stats` table;
 *   - the history key, format "YYYY/MM/DD HH:mm" ("2024/03/04 09:15"), the
 *     primary key of the `history` table, whose first ten characters are the
 *     date key the `today` query filters on.
 * The clock itself is not modelled: a reading is a LocalTime value.
 */
module TimeKeys {
  import opened Wrappers
  import opened Collation

  datatype Weekday = Sunday | Monday | Tuesday | Wednesday | Thursday | Friday | Saturday

  /** The weekday list in the order moment enumerates it, Sunday first. */
  const Weekdays: seq<Weekday> := [Sunday, Monday, Tuesday, Wednesday, Thursday, Friday, Saturday]

  /** The "dddd" token. */
  function Name(w: Weekday): string
  {
    match w
    case Sunday => "Sunday"
    case Monday => "Monday"
    case Tuesday => "Tuesday"
    case Wednesday => "Wednesday"
    case Thursday => "Thursday"
    case Friday => "Friday"
    case Saturday => "Saturday"
  }

  /** Reads a "dddd" token back. */
  function NamedDay(name: string): (r: Option<Weekday>)
    ensures r.Some? ==> Name(r.value) == name
  {
    if name == "Sunday" then Some(Sunday)
    else if name == "Monday" then Some(Monday)
    else if name == "Tuesday" then Some(Tuesday)
    else if name == "Wednesday" then Some(Wednesday)
    else if name == "Thursday" then Some(Thursday)
    else if name == "Friday" then Some(Friday)
    else if name == "Saturday" then Some(Saturday)
    else None
  }

  /** The route name of a weekday: its name in lower case. */
  function LowerName(w: Weekday): string
  {
    LowerAll(Name(w))
  }

  datatype Date = Date(year: nat, month: nat, day: nat)
  {
    /** The ranges of moment's "YYYY", "MM" and "DD" tokens for a four-digit year. */
    predicate Valid()
    {
      year < 10000 && 1 <= month <= 12 && 1 <= day <= 31
    }
  }

  /** A recurring weekly slot: what the "dddd, HH:mm" format keeps of a reading. */
  datatype Slot = Slot(weekday: Weekday, hour: nat, minute: nat)
  {
    predicate Valid()
    {
      hour < 24 && minute < 60
    }

    function MinuteOfDay(): nat
    {
      hour * 60 + minute
    }
  }

  /** A calendar minute: what the "YYYY/MM/DD HH:mm" format keeps of a reading. */
  datatype Stamp = Stamp(date: Date, hour: nat, minute: nat)
  {
    predicate Valid()
    {
      date.Valid() && hour < 24 && minute < 60
    }

    function MinuteOfDay(): nat
    {
      hour * 60 + minute
    }
  }

  /**
   * One reading of the local clock, as moment sees it. That the weekday is the
   * one the calendar gives for the date is moment's business and is not checked.
   */
  datatype LocalTime = LocalTime(date: Date, weekday: Weekday, hour: nat, minute: nat)
  {
    predicate Valid()
    {
      date.Valid() && hour < 24 && minute < 60
    }

    function WeeklySlot(): (s: Slot)
      requires Valid()
      ensures s.Valid()
    {
      Slot(weekday, hour, minute)
    }

    function CalendarStamp(): (s: Stamp)
      requires Valid()
      ensures s.Valid()
    {
      Stamp(date, hour, minute)
    }
  }

  function Pow10(n: nat): (r: nat)
    ensures r >= 1
  {
    if n == 0 then 1 else 10 * Pow10(n - 1)
  }

  predicate IsDigit(c: char)
  {
    '0' <= c <= '9'
  }

  predicate AllDigits(s: string)
  {
    forall i :: 0 <= i < |s| ==> IsDigit(s[i])
  }

  function Digit(d: nat): (c: char)
    requires d < 10
    ensures IsDigit(c)
  {
    ('0' as int + d) as char
  }

  /** Decimal digits of `x`, zero-filled on the left to exactly `width` characters. */
  function Pad(x: nat, width: nat): (s: string)
    requires x < Pow10(width)
    ensures |s| == width
    ensures AllDigits(s)
    decreases width
  {
    if width == 0 then [] else Pad(x / 10, width - 1) + [Digit(x % 10)]
  }

  /** The number a string of decimal digits denotes. */
  function Value(s: string): (r: nat)
    requires AllDigits(s)
    ensures r < Pow10(|s|)
  {
    if s == [] then 0
    else Value(s[..|s| - 1]) * 10 + (s[|s| - 1] as int - '0' as int)
  }

  /** Zero filling loses nothing: the digits read back as the number. */
  lemma {:induction false} ValuePad(x: nat, width: nat)
    requires x < Pow10(width)
    ensures Value(Pad(x, width)) == x
    decreases width
  {
    if width > 0 {
      var s := Pad(x, width);
      assert s[..|s| - 1] == Pad(x / 10, width - 1);
      ValuePad(x / 10, width - 1);
    }
  }

  /** Zero-filled numbers of one width sort as the numbers do. */
  lemma {:induction false} PadOrder(x: nat, y: nat, width: nat)
    requires x < Pow10(width) && y < Pow10(width)
    ensures Less(Pad(x, width), Pad(y, width)) <==> x < y
    decreases width
  {
    if width == 0 {
      LessIrreflexive([]);
    } else {
      var a, b := Pad(x / 10, width - 1), Pad(y / 10, width - 1);
      PadOrder(x / 10, y / 10, width - 1);
      ValuePad(x / 10, width - 1);
      ValuePad(y / 10, width - 1);
      LessAppendLast(a, b, Digit(x % 10), Digit(y % 10));
    }
  }

  /** The "HH:mm" part both keys end with. */
  function Clock(hour: nat, minute: nat): (s: string)
    requires hour < 100 && minute < 100
    ensures |s| == 5
  {
    Pad(hour, 2) + ":" + Pad(minute, 2)
  }

  /** Within one day, "HH:mm" strings sort as the times of day they denote. */
  lemma ClockOrder(h1: nat, m1: nat, h2: nat, m2: nat)
    requires h1 < 24 && m1 < 60 && h2 < 24 && m2 < 60
    ensures Less(Clock(h1, m1), Clock(h2, m2)) <==> h1 * 60 + m1 < h2 * 60 + m2
  {
    var c1, c2 := Clock(h1, m1), Clock(h2, m2);
    assert c1 == Pad(h1, 2) + (":" + Pad(m1, 2));
    assert c2 == Pad(h2, 2) + (":" + Pad(m2, 2));
    PadOrder(h1, h2, 2);
    if h1 != h2 {
      ValuePad(h1, 2);
      ValuePad(h2, 2);
      LessDecidedByHead(Pad(h1, 2), Pad(h2, 2), ":" + Pad(m1, 2), ":" + Pad(m2, 2));
    } else {
      LessCommonPrefix(Pad(h1, 2) + ":", Pad(m1, 2), Pad(m2, 2));
      PadOrder(m1, m2, 2);
    }
  }

  /** moment().format("dddd, HH:mm"). */
  function SlotKey(s: Slot): (k: string)
    requires s.Valid()
    ensures |k| == |Name(s.weekday)| + 7
  {
    Name(s.weekday) + ", " + Clock(s.hour, s.minute)
  }

  /** moment().format("YYYY/MM/DD"). */
  function DateKey(d: Date): (k: string)
    requires d.Valid()
    ensures |k| == 10
  {
    Pad(d.year, 4) + "/" + Pad(d.month, 2) + "/" + Pad(d.day, 2)
  }

  /** moment().format("YYYY/MM/DD HH:mm"). */
  function HistoryKey(s: Stamp): (k: string)
    requires s.Valid()
    ensures |k| == 16
  {
    DateKey(s.date) + " " + Clock(s.hour, s.minute)
  }

  /** Reads "HH:mm" back. */
  function ParseClock(s: string): Option<(nat, nat)>
  {
    if |s| == 5 && AllDigits(s[..2]) && s[2] == ':' && AllDigits(s[3..])
    then Some((Value(s[..2]), Value(s[3..])))
    else None
  }

  /** Reads a "dddd, HH:mm" key back. */
  function ParseSlotKey(k: string): Option<Slot>
  {
    if |k| < 7 || k[|k| - 7..|k| - 5] != ", " then None
    else match (NamedDay(k[..|k| - 7]), ParseClock(k[|k| - 5..]))
      case (Some(w), Some((h, m))) => Some(Slot(w, h, m))
      case _ => None
  }

  /** Reads a "YYYY/MM/DD" key back. */
  function ParseDateKey(k: string): Option<Date>
  {
    if |k| == 10 && AllDigits(k[..4]) && k[4] == '/' && AllDigits(k[5..7]) && k[7] == '/' && AllDigits(k[8..])
    then Some(Date(Value(k[..4]), Value(k[5..7]), Value(k[8..])))
    else None
  }

  /** Reads a "YYYY/MM/DD HH:mm" key back. */
  function ParseHistoryKey(k: string): Option<Stamp>
  {
    if |k| != 16 || k[10] != ' ' then None
    else match (ParseDateKey(k[..10]), ParseClock(k[11..]))
      case (Some(d), Some((h, m))) => Some(Stamp(d, h, m))
      case _ => None
  }

  /** The two halves of a concatenation are its slices. */
  lemma Halves(a: string, b: string)
    ensures (a + b)[..|a|] == a && (a + b)[|a|..] == b
  {
  }

  lemma ParseClockRoundTrip(h: nat, m: nat)
    requires h < 100 && m < 100
    ensures ParseClock(Clock(h, m)) == Some((h, m))
  {
    var c, hh := Clock(h, m), Pad(h, 2) + ":";
    Halves(hh, Pad(m, 2));
    Halves(Pad(h, 2), ":");
    assert c[..2] == hh[..2] == Pad(h, 2) && c[2] == hh[2] == ':' && c[3..] == Pad(m, 2);
    ValuePad(h, 2);
    ValuePad(m, 2);
  }

  lemma NamedDayRoundTrip(w: Weekday)
    ensures NamedDay(Name(w)) == Some(w)
  {
    match w
    case Sunday =>
    case Monday =>
    case Tuesday =>
    case Wednesday =>
    case Thursday =>
    case Friday =>
    case Saturday =>
  }

  /** The slot key determines the slot. */
  lemma SlotKeyRoundTrip(s: Slot)
    requires s.Valid()
    ensures ParseSlotKey(SlotKey(s)) == Some(s)
  {
    var k, name, clock := SlotKey(s), Name(s.weekday), Clock(s.hour, s.minute);
    var n := |name|;
    Halves(name + ", ", clock);
    Halves(name, ", ");
    assert k[..n] == name && k[n..n + 2] == ", " && k[n + 2..] == clock;
    NamedDayRoundTrip(s.weekday);
    ParseClockRoundTrip(s.hour, s.minute);
  }

  /** The date key determines the date. */
  lemma DateKeyRoundTrip(d: Date)
    requires d.Valid()
    ensures ParseDateKey(DateKey(d)) == Some(d)
  {
    var y, m, dd := Pad(d.year, 4), Pad(d.month, 2), Pad(d.day, 2);
    var k := DateKey(d);
    Halves(y + "/" + m + "/", dd);
    Halves(y + "/" + m, "/");
    Halves(y + "/", m);
    Halves(y, "/");
    assert k[..4] == y && k[4] == '/' && k[5..7] == m && k[7] == '/' && k[8..] == dd;
    ValuePad(d.year, 4);
    ValuePad(d.month, 2);
    ValuePad(d.day, 2);
  }

  /** The history key determines the calendar minute. */
  lemma HistoryKeyRoundTrip(s: Stamp)
    requires s.Valid()
    ensures ParseHistoryKey(HistoryKey(s)) == Some(s)
  {
    var k := HistoryKey(s);
    Halves(DateKey(s.date) + " ", Clock(s.hour, s.minute));
    Halves(DateKey(s.date), " ");
    assert k[..10] == DateKey(s.date) && k[10] == ' ' && k[11..] == Clock(s.hour, s.minute);
    DateKeyRoundTrip(s.date);
    ParseClockRoundTrip(s.hour, s.minute);
  }

  /** Two readings share a `stats` row exactly when they share weekday, hour and minute. */
  lemma SlotKeyInjective(s1: Slot, s2: Slot)
    requires s1.Valid() && s2.Valid()
    ensures SlotKey(s1) == SlotKey(s2) <==> s1 == s2
  {
    SlotKeyRoundTrip(s1);
    SlotKeyRoundTrip(s2);
  }

  /** Two readings share a `history` key exactly when they share date, hour and minute. */
  lemma HistoryKeyInjective(s1: Stamp, s2: Stamp)
    requires s1.Valid() && s2.Valid()
    ensures HistoryKey(s1) == HistoryKey(s2) <==> s1 == s2
  {
    HistoryKeyRoundTrip(s1);
    HistoryKeyRoundTrip(s2);
  }

  /**
   * The slot key ignores the calendar date: readings on different dates that fall
   * on the same weekday at the same time (a week apart, say) name one `stats` row
   * and two different `history` rows.
   */
  lemma WeeklyRecurrence(t1: LocalTime, t2: LocalTime)
    requires t1.Valid() && t2.Valid()
    requires t1.weekday == t2.weekday && t1.hour == t2.hour && t1.minute == t2.minute
    requires t1.date != t2.date
    ensures SlotKey(t1.WeeklySlot()) == SlotKey(t2.WeeklySlot())
    ensures HistoryKey(t1.CalendarStamp()) != HistoryKey(t2.CalendarStamp())
  {
    HistoryKeyInjective(t1.CalendarStamp(), t2.CalendarStamp());
  }

  /** Within one weekday, slot keys sort as the times of day they denote. */
  lemma SlotKeyOrder(s1: Slot, s2: Slot)
    requires s1.Valid() && s2.Valid() && s1.weekday == s2.weekday
    ensures Less(SlotKey(s1), SlotKey(s2)) <==> s1.MinuteOfDay() < s2.MinuteOfDay()
  {
    LessCommonPrefix(Name(s1.weekday) + ", ", Clock(s1.hour, s1.minute), Clock(s2.hour, s2.minute));
    ClockOrder(s1.hour, s1.minute, s2.hour, s2.minute);
  }

  /** Within one date, history keys sort as the times of day they denote. */
  lemma HistoryKeyOrder(s1: Stamp, s2: Stamp)
    requires s1.Valid() && s2.Valid() && s1.date == s2.date
    ensures Less(HistoryKey(s1), HistoryKey(s2)) <==> s1.MinuteOfDay() < s2.MinuteOfDay()
  {
    LessCommonPrefix(DateKey(s1.date) + " ", Clock(s1.hour, s1.minute), Clock(s2.hour, s2.minute));
    ClockOrder(s1.hour, s1.minute, s2.hour, s2.minute);
  }

  /** A route name holds no `LIKE` wildcard. */
  lemma LowerNameLiteral(w: Weekday)
    ensures Literal(LowerName(w))
  {
  }

  /** A weekday's route name begins, case-insensitively, exactly that weekday's slot keys. */
  lemma WeekdayPrefix(w: Weekday, s: Slot)
    requires s.Valid()
    ensures StartsWithIgnoringCase(LowerName(w), SlotKey(s)) <==> s.weekday == w
  {
    var p, k := LowerName(w), SlotKey(s);
    assert k[..|Name(s.weekday)|] == Name(s.weekday);
    if s.weekday == w {
      forall i | 0 <= i < |p|
        ensures Lower(p[i]) == Lower(k[i])
      {
        assert k[i] == Name(w)[i];
      }
    } else {
      assert Lower(p[0]) != Lower(k[0]) || Lower(p[1]) != Lower(k[1]) by {
        assert k[0] == Name(s.weekday)[0] && k[1] == Name(s.weekday)[1];
      }
    }
  }

  /** A date key holds digits and slashes only. */
  lemma DateKeyChars(d: Date)
    requires d.Valid()
    ensures forall i :: 0 <= i < 10 ==> IsDigit(DateKey(d)[i]) || DateKey(d)[i] == '/'
  {
    var k := DateKey(d);
    forall i | 0 <= i < 10
      ensures IsDigit(k[i]) || k[i] == '/'
    {
      if i < 4 {
        assert k[i] == Pad(d.year, 4)[i];
      } else if 4 < i < 7 {
        assert k[i] == Pad(d.month, 2)[i - 5];
      } else if 7 < i {
        assert k[i] == Pad(d.day, 2)[i - 8];
      }
    }
  }

  /** A date key holds no `LIKE` wildcard. */
  lemma DateKeyLiteral(d: Date)
    requires d.Valid()
    ensures Literal(DateKey(d))
  {
    DateKeyChars(d);
  }

  /** The date key of `d` begins, case-insensitively, exactly the history keys on date `d`. */
  lemma DatePrefix(d: Date, s: Stamp)
    requires d.Valid() && s.Valid()
    ensures StartsWithIgnoringCase(DateKey(d), HistoryKey(s)) <==> s.date == d
  {
    var p, k := DateKey(d), HistoryKey(s);
    var q := DateKey(s.date);
    assert k[..10] == q;
    DateKeyChars(d);
    DateKeyChars(s.date);
    if StartsWithIgnoringCase(p, k) {
      forall i | 0 <= i < 10
        ensures p[i] == q[i]
      {
        assert Lower(p[i]) == Lower(k[i]);
      }
      assert p == q;
      DateKeyRoundTrip(d);
      DateKeyRoundTrip(s.date);
    }
  }
}
