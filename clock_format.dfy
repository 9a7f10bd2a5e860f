/**
 * The two clock formats of the logger. The wall clock itself is not
 * modelled: a calendar day and a time of day are passed in, and only the
 * text strftime makes of them is defined here.
 *
 *   day-table name:  '%a_%d_%b_%Y'           e.g. Mon_05_Aug_2024
 *   record stamp:    '%H:%M:%S.%f (UTC)'     e.g. 09:03:07.000420 (UTC)
 *
 * Weekday and month abbreviations are those of the C (English) locale.
 */
module ClockFormat {
  import opened Wrappers
  import opened Digits

  datatype Weekday = Mon | Tue | Wed | Thu | Fri | Sat | Sun
  datatype Month = Jan | Feb | Mar | Apr | May | Jun | Jul | Aug | Sep | Oct | Nov | Dec

  type DayOfMonth = d: nat | 1 <= d <= 31 witness 1
  /** Years whose `%Y` is four digits on every platform. */
  type Year = y: nat | 1000 <= y <= 9999 witness 1000
  type Hour = h: nat | h < 24
  type Minute = m: nat | m < 60
  type Second = s: nat | s < 60
  type Microsecond = us: nat | us < 1000000

  /** A reading of the calendar: what `%a`, `%d`, `%b` and `%Y` print. */
  datatype Date = Date(weekday: Weekday, day: DayOfMonth, month: Month, year: Year)

  /** A reading of the clock: what `%H`, `%M`, `%S` and `%f` print. */
  datatype Time = Time(hour: Hour, minute: Minute, second: Second, microsecond: Microsecond)

  /** The `%a` abbreviation: a capital letter followed by two small letters. */
  function WeekdayName(w: Weekday): (r: string)
    ensures |r| == 3 && 'A' <= r[0] <= 'Z' && 'a' <= r[1] <= 'z' && 'a' <= r[2] <= 'z'
  {
    match w
    case Mon => "Mon"
    case Tue => "Tue"
    case Wed => "Wed"
    case Thu => "Thu"
    case Fri => "Fri"
    case Sat => "Sat"
    case Sun => "Sun"
  }

  function WeekdayFromName(s: string): (r: Option<Weekday>)
    ensures r.Some? ==> WeekdayName(r.value) == s
  {
    if s == "Mon" then Some(Mon)
    else if s == "Tue" then Some(Tue)
    else if s == "Wed" then Some(Wed)
    else if s == "Thu" then Some(Thu)
    else if s == "Fri" then Some(Fri)
    else if s == "Sat" then Some(Sat)
    else if s == "Sun" then Some(Sun)
    else None
  }

  /** The `%b` abbreviation: a capital letter followed by two small letters. */
  function MonthName(m: Month): (r: string)
    ensures |r| == 3 && 'A' <= r[0] <= 'Z' && 'a' <= r[1] <= 'z' && 'a' <= r[2] <= 'z'
  {
    match m
    case Jan => "Jan"
    case Feb => "Feb"
    case Mar => "Mar"
    case Apr => "Apr"
    case May => "May"
    case Jun => "Jun"
    case Jul => "Jul"
    case Aug => "Aug"
    case Sep => "Sep"
    case Oct => "Oct"
    case Nov => "Nov"
    case Dec => "Dec"
  }

  function MonthFromName(s: string): (r: Option<Month>)
    ensures r.Some? ==> MonthName(r.value) == s
  {
    if s == "Jan" then Some(Jan)
    else if s == "Feb" then Some(Feb)
    else if s == "Mar" then Some(Mar)
    else if s == "Apr" then Some(Apr)
    else if s == "May" then Some(May)
    else if s == "Jun" then Some(Jun)
    else if s == "Jul" then Some(Jul)
    else if s == "Aug" then Some(Aug)
    else if s == "Sep" then Some(Sep)
    else if s == "Oct" then Some(Oct)
    else if s == "Nov" then Some(Nov)
    else if s == "Dec" then Some(Dec)
    else None
  }

  lemma WeekdayNameRoundTrip(w: Weekday)
    ensures |WeekdayName(w)| == 3
    ensures WeekdayFromName(WeekdayName(w)) == Some(w)
  {
    match w
    case Mon =>
    case Tue =>
    case Wed =>
    case Thu =>
    case Fri =>
    case Sat =>
    case Sun =>
  }

  lemma MonthNameRoundTrip(m: Month)
    ensures |MonthName(m)| == 3
    ensures MonthFromName(MonthName(m)) == Some(m)
  {
    match m
    case Jan =>
    case Feb =>
    case Mar =>
    case Apr =>
    case May =>
    case Jun =>
    case Jul =>
    case Aug =>
    case Sep =>
    case Oct =>
    case Nov =>
    case Dec =>
  }

  /** The day-table name: 3-letter weekday, 2-digit day, 3-letter month, 4-digit year, joined by '_'. */
  function TableName(d: Date): (r: string)
    ensures |r| == 15
  {
    WeekdayNameRoundTrip(d.weekday);
    MonthNameRoundTrip(d.month);
    WeekdayName(d.weekday) + "_" + Pad(d.day, 2) + "_" + MonthName(d.month) + "_" + Pad(d.year, 4)
  }

  /** Where each field of a day-table name sits. */
  lemma TableNameLayout(d: Date)
    ensures var r := TableName(d);
      && r[3] == '_' && r[6] == '_' && r[10] == '_'
      && r[..3] == WeekdayName(d.weekday) && r[4..6] == Pad(d.day, 2)
      && r[7..10] == MonthName(d.month) && r[11..] == Pad(d.year, 4)
  {
    WeekdayNameRoundTrip(d.weekday);
    MonthNameRoundTrip(d.month);
    var weekday, day, month, year := WeekdayName(d.weekday), Pad(d.day, 2), MonthName(d.month), Pad(d.year, 4);
    var r := weekday + "_" + day + "_" + month + "_" + year;
    assert r[..3] == weekday && r[4..6] == day && r[7..10] == month && r[11..] == year;
  }

  /** Reads a day-table name back as the day it names; None for any other string. */
  function ParseTableName(s: string): (r: Option<Date>)
  {
    if |s| != 15 || s[3] != '_' || s[6] != '_' || s[10] != '_'
       || !AllDigits(s[4..6]) || !AllDigits(s[11..]) then None
    else
      var w := WeekdayFromName(s[..3]);
      var m := MonthFromName(s[7..10]);
      var day := Parse(s[4..6]);
      var year := Parse(s[11..]);
      assert year < Pow10(4) == 10000;
      if w.None? || m.None? || day < 1 || 31 < day || year < 1000 then None
      else Some(Date(w.value, day, m.value, year))
  }

  /** Every day's table name reads back as that day. */
  lemma TableNameRoundTrip(d: Date)
    ensures ParseTableName(TableName(d)) == Some(d)
  {
    TableNameLayout(d);
    WeekdayNameRoundTrip(d.weekday);
    MonthNameRoundTrip(d.month);
    ParsePad(d.day, 2);
    ParsePad(d.year, 4);
  }

  /** Only table names read back: whatever parses is the name of the day it parses to. */
  lemma ParseTableNameSound(s: string, d: Date)
    requires ParseTableName(s) == Some(d)
    ensures TableName(d) == s
  {
    assert |s| == 15 && s[3] == '_' && s[6] == '_' && s[10] == '_';
    assert WeekdayFromName(s[..3]) == Some(d.weekday) && MonthFromName(s[7..10]) == Some(d.month);
    assert d.day == Parse(s[4..6]) && d.year == Parse(s[11..]);
    PadParse(s[4..6]);
    PadParse(s[11..]);
    var t := TableName(d);
    TableNameLayout(d);
    forall i | 0 <= i < 15
      ensures t[i] == s[i]
    {
      if i < 3 {
        assert t[..3][i] == s[..3][i];
      } else if 4 <= i < 6 {
        assert t[4..6][i - 4] == s[4..6][i - 4];
      } else if 7 <= i < 10 {
        assert t[7..10][i - 7] == s[7..10][i - 7];
      } else if 11 <= i {
        assert t[11..][i - 11] == s[11..][i - 11];
      }
    }
  }

  /** Different days get different tables. */
  lemma TableNameInjective(d: Date, e: Date)
    ensures TableName(d) == TableName(e) <==> d == e
  {
    TableNameRoundTrip(d);
    TableNameRoundTrip(e);
  }

  /** The record timestamp 'HH:MM:SS.ffffff (UTC)'. The clock is read as is; nothing is converted to UTC. */
  function Timestamp(t: Time): (r: string)
    ensures |r| == 21
  {
    Pad(t.hour, 2) + ":" + Pad(t.minute, 2) + ":" + Pad(t.second, 2) + "." + Pad(t.microsecond, 6) + " (UTC)"
  }

  /** Where each field of a timestamp sits. */
  lemma TimestampLayout(t: Time)
    ensures var r := Timestamp(t);
      && r[2] == ':' && r[5] == ':' && r[8] == '.' && r[15..] == " (UTC)"
      && r[..2] == Pad(t.hour, 2) && r[3..5] == Pad(t.minute, 2)
      && r[6..8] == Pad(t.second, 2) && r[9..15] == Pad(t.microsecond, 6)
  {
    var hour, minute, second, micro := Pad(t.hour, 2), Pad(t.minute, 2), Pad(t.second, 2), Pad(t.microsecond, 6);
    var r := hour + ":" + minute + ":" + second + "." + micro + " (UTC)";
    assert r[..2] == hour && r[3..5] == minute && r[6..8] == second && r[9..15] == micro && r[15..] == " (UTC)";
  }

  /** Reads a timestamp back as the clock reading it shows; None for any other string. */
  function ParseTimestamp(s: string): (r: Option<Time>)
  {
    if |s| != 21 || s[2] != ':' || s[5] != ':' || s[8] != '.' || s[15..] != " (UTC)"
       || !AllDigits(s[..2]) || !AllDigits(s[3..5]) || !AllDigits(s[6..8]) || !AllDigits(s[9..15]) then None
    else
      var h := Parse(s[..2]);
      var m := Parse(s[3..5]);
      var sec := Parse(s[6..8]);
      var us := Parse(s[9..15]);
      assert us < Pow10(6) == 1000000;
      if 24 <= h || 60 <= m || 60 <= sec then None
      else Some(Time(h, m, sec, us))
  }

  /** Every timestamp reads back as the clock reading it was made from; in particular HH is 00..23. */
  lemma TimestampRoundTrip(t: Time)
    ensures ParseTimestamp(Timestamp(t)) == Some(t)
  {
    TimestampLayout(t);
    ParsePad(t.hour, 2);
    ParsePad(t.minute, 2);
    ParsePad(t.second, 2);
    ParsePad(t.microsecond, 6);
  }

  /** Only timestamps read back: whatever parses is the timestamp of the reading it parses to. */
  lemma ParseTimestampSound(s: string, t: Time)
    requires ParseTimestamp(s) == Some(t)
    ensures Timestamp(t) == s
  {
    assert |s| == 21 && s[2] == ':' && s[5] == ':' && s[8] == '.' && s[15..] == " (UTC)";
    assert t.hour == Parse(s[..2]) && t.minute == Parse(s[3..5]);
    assert t.second == Parse(s[6..8]) && t.microsecond == Parse(s[9..15]);
    PadParse(s[..2]);
    PadParse(s[3..5]);
    PadParse(s[6..8]);
    PadParse(s[9..15]);
    var r := Timestamp(t);
    TimestampLayout(t);
    forall i | 0 <= i < 21
      ensures r[i] == s[i]
    {
      if i < 2 {
        assert r[..2][i] == s[..2][i];
      } else if 3 <= i < 5 {
        assert r[3..5][i - 3] == s[3..5][i - 3];
      } else if 6 <= i < 8 {
        assert r[6..8][i - 6] == s[6..8][i - 6];
      } else if 9 <= i < 15 {
        assert r[9..15][i - 9] == s[9..15][i - 9];
      } else if 15 <= i {
        assert r[15..][i - 15] == s[15..][i - 15];
      }
    }
  }
}
