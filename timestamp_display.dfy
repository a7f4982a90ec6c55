/**
 * The relative-time label of the timestamp display: the minutes elapsed since a
 * timestamp, bucketed into "Just now", minutes, hours, days or weeks, and
 * written as a short English label. Times are milliseconds since the epoch; the
 * current time is a parameter.
 */
module TimestampDisplay {
  import opened Samples

  const MinuteMillis: int := 1000 * 60
  const Hour: int := 60
  const Day: int := 1440
  const Week: int := 10080

  /** Whole minutes from `thenMillis` to `nowMillis`, rounded down (negative for a
      timestamp in the future). */
  function DiffInMinutes(nowMillis: int, thenMillis: int): (d: int)
    ensures MinuteMillis * d <= nowMillis - thenMillis < MinuteMillis * (d + 1)
  {
    (nowMillis - thenMillis) / MinuteMillis
  }

  /** What the label says, as a value. */
  datatype RelativeTime = JustNow | MinutesAgo(n: nat) | HoursAgo(n: nat) | DaysAgo(n: nat) | WeeksAgo(n: nat)

  /** The bucket a minute count falls into, and the whole units it shows. */
  function Bucket(diff: int): (r: RelativeTime)
    ensures r == JustNow <==> diff < 1
    ensures r.MinutesAgo? <==> 1 <= diff < Hour
    ensures r.HoursAgo? <==> Hour <= diff < Day
    ensures r.DaysAgo? <==> Day <= diff < Week
    ensures r.WeeksAgo? <==> Week <= diff
    ensures r.MinutesAgo? ==> r.n == diff
    ensures r.HoursAgo? ==> 1 <= r.n < 24 && Hour * r.n <= diff < Hour * (r.n + 1)
    ensures r.DaysAgo? ==> 1 <= r.n < 7 && Day * r.n <= diff < Day * (r.n + 1)
    ensures r.WeeksAgo? ==> 1 <= r.n && Week * r.n <= diff < Week * (r.n + 1)
  {
    if diff < 1 then JustNow
    else if diff < Hour then MinutesAgo(diff)
    else if diff < Day then HoursAgo(diff / Hour)
    else if diff < Week then DaysAgo(diff / Day)
    else WeeksAgo(diff / Week)
  }

  // ---------------------------------------------------------------------------
  // Decimal numerals

  function DigitChar(d: nat): (c: char)
    requires d < 10
    ensures '0' <= c <= '9'
  {
    (d + '0' as int) as char
  }

  function DigitValue(c: char): nat
    requires '0' <= c <= '9'
  {
    c as int - '0' as int
  }

  predicate IsNumeral(s: string)
  {
    |s| >= 1 && forall i :: 0 <= i < |s| ==> '0' <= s[i] <= '9'
  }

  /** The decimal numeral of `n`, as JavaScript writes an integer into a template
      string: no leading zeros. */
  function NatToString(n: nat): (s: string)
    ensures IsNumeral(s)
    ensures |s| > 1 ==> s[0] != '0'
  {
    if n < 10 then [DigitChar(n)] else NatToString(n / 10) + [DigitChar(n % 10)]
  }

  function ParseNat(s: string): nat
    requires forall i :: 0 <= i < |s| ==> '0' <= s[i] <= '9'
  {
    if s == [] then 0 else ParseNat(s[..|s| - 1]) * 10 + DigitValue(s[|s| - 1])
  }

  lemma {:induction false} ParseNatToString(n: nat)
    ensures ParseNat(NatToString(n)) == n
  {
    if n >= 10 {
      var s := NatToString(n);
      assert s[..|s| - 1] == NatToString(n / 10);
      ParseNatToString(n / 10);
    }
  }

  // ---------------------------------------------------------------------------
  // The label

  /** `${n}m ago` and its siblings: a count, a one-letter unit and " ago". */
  function Ago(n: nat, unit: char): (s: string)
    ensures s != "Just now"
  {
    var s := NatToString(n) + [unit] + " ago";
    assert s[|s| - 1] == 'o';
    s
  }

  /** The label for a minute count. */
  function GetRelativeTime(diffInMinutes: int): (s: string)
    ensures s == "Just now" <==> diffInMinutes < 1
  {
    if diffInMinutes < 1 then "Just now"
    else if diffInMinutes < Hour then Ago(diffInMinutes, 'm')
    else if diffInMinutes < Day then Ago(diffInMinutes / Hour, 'h')
    else if diffInMinutes < Week then Ago(diffInMinutes / Day, 'd')
    else Ago(diffInMinutes / Week, 'w')
  }

  /** The label of a timestamp that may fail to parse (None). An unparsable
      timestamp makes the formatter fail while it builds the ISO form of the same
      date, so no label is produced at all: the result is None. */
  function RelativeLabel(nowMillis: int, thenMillis: Option<int>): (r: Option<string>)
    ensures r.None? <==> thenMillis.None?
    ensures thenMillis.Some? ==>
      r == Some(GetRelativeTime(DiffInMinutes(nowMillis, thenMillis.value)))
      && ReadRelative(r.value) == Some(Bucket(DiffInMinutes(nowMillis, thenMillis.value)))
  {
    match thenMillis
    case None => None
    case Some(t) =>
      LabelReadsAsBucket(DiffInMinutes(nowMillis, t));
      Some(GetRelativeTime(DiffInMinutes(nowMillis, t)))
  }

  /** Reads a label back: a numeral, a unit letter and " ago", or "Just now". */
  function ReadRelative(s: string): Option<RelativeTime>
  {
    if s == "Just now" then Some(JustNow)
    else if |s| < 6 || !IsNumeral(s[..|s| - 5]) || s[|s| - 4..] != " ago" then None
    else
      var n, unit := ParseNat(s[..|s| - 5]), s[|s| - 5];
      if unit == 'm' then Some(MinutesAgo(n))
      else if unit == 'h' then Some(HoursAgo(n))
      else if unit == 'd' then Some(DaysAgo(n))
      else if unit == 'w' then Some(WeeksAgo(n))
      else None
  }

  /** The unit letter of a bucket ("Just now" has none). */
  function UnitOf(r: RelativeTime): char
  {
    match r
    case JustNow => ' '
    case MinutesAgo(_) => 'm'
    case HoursAgo(_) => 'h'
    case DaysAgo(_) => 'd'
    case WeeksAgo(_) => 'w'
  }

  lemma ReadAgo(r: RelativeTime)
    requires !r.JustNow?
    ensures ReadRelative(Ago(r.n, UnitOf(r))) == Some(r)
  {
    var s := Ago(r.n, UnitOf(r));
    assert s[..|s| - 5] == NatToString(r.n);
    assert s[|s| - 5] == UnitOf(r);
    assert s[|s| - 4..] == " ago";
    ParseNatToString(r.n);
  }

  /** Every label reads back as the bucket of its minute count: the label names
      the right unit and the right whole number of units. */
  lemma LabelReadsAsBucket(diffInMinutes: int)
    ensures ReadRelative(GetRelativeTime(diffInMinutes)) == Some(Bucket(diffInMinutes))
  {
    var b := Bucket(diffInMinutes);
    if !b.JustNow? {
      assert GetRelativeTime(diffInMinutes) == Ago(b.n, UnitOf(b));
      ReadAgo(b);
    }
  }

  /** So two minute counts get the same label exactly when they fall into the same bucket. */
  lemma SameLabelSameBucket(d: int, d': int)
    ensures GetRelativeTime(d) == GetRelativeTime(d') <==> Bucket(d) == Bucket(d')
  {
    LabelReadsAsBucket(d);
    LabelReadsAsBucket(d');
    if Bucket(d) == Bucket(d') {
      var b := Bucket(d);
      if !b.JustNow? {
        assert GetRelativeTime(d) == Ago(b.n, UnitOf(b));
        assert GetRelativeTime(d') == Ago(b.n, UnitOf(b));
      }
    }
  }

  /** A timestamp in the future reads "Just now". */
  lemma FutureIsJustNow(nowMillis: int, thenMillis: int)
    requires thenMillis > nowMillis
    ensures RelativeLabel(nowMillis, Some(thenMillis)) == Some("Just now")
  {
  }
}
