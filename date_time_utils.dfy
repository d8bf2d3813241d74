/**
 * The history list's relative timestamps: an elapsed time in milliseconds is
 * put into the first bucket whose threshold it is below (one minute, one
 * hour, one day, one week); older entries show the formatted date, whose
 * locale-dependent formatter is a parameter.
 */
module DateTimeUtils {
  import opened KotlinText

  const MinuteMs: int := 60000
  const HourMs: int := 3600000
  const DayMs: int := 86400000
  const WeekMs: int := 604800000

  /** Which line the history shows for an elapsed time. */
  datatype Span = JustNow | MinutesAgo(n: nat) | HoursAgo(n: nat) | DaysAgo(n: nat) | Dated

  /**
   * The `when` over thresholds. Each count is the elapsed time divided by its
   * unit; the elapsed time is positive on those branches, so Kotlin's
   * truncating division and Dafny's agree.
   */
  function Bucket(diff: int): (s: Span)
    ensures diff < MinuteMs <==> s == JustNow
    ensures MinuteMs <= diff < HourMs <==> s.MinutesAgo?
    ensures HourMs <= diff < DayMs <==> s.HoursAgo?
    ensures DayMs <= diff < WeekMs <==> s.DaysAgo?
    ensures WeekMs <= diff <==> s == Dated
    ensures s.MinutesAgo? ==> 1 <= s.n <= 59 && s.n * MinuteMs <= diff < (s.n + 1) * MinuteMs
    ensures s.HoursAgo? ==> 1 <= s.n <= 23 && s.n * HourMs <= diff < (s.n + 1) * HourMs
    ensures s.DaysAgo? ==> 1 <= s.n <= 6 && s.n * DayMs <= diff < (s.n + 1) * DayMs
  {
    if diff < MinuteMs then JustNow
    else if diff < HourMs then MinutesAgo(diff / MinuteMs)
    else if diff < DayMs then HoursAgo(diff / HourMs)
    else if diff < WeekMs then DaysAgo(diff / DayMs)
    else Dated
  }

  function SpanText(s: Span, formattedDate: string): string {
    match s
    case JustNow => "Just now"
    case MinutesAgo(n) => NatToString(n) + "m ago"
    case HoursAgo(n) => NatToString(n) + "h ago"
    case DaysAgo(n) => NatToString(n) + "d ago"
    case Dated => formattedDate
  }

  /** `getRelativeTimeSpan`, with the clock reading and the date formatter as parameters. */
  function RelativeTimeSpan(timestamp: int, now: int, formatDate: int -> string): (r: string)
    ensures now - timestamp < MinuteMs ==> r == "Just now"
    ensures now - timestamp >= WeekMs ==> r == formatDate(timestamp)
    ensures MinuteMs <= now - timestamp < HourMs ==>
              exists n: nat :: 1 <= n <= 59 && n * MinuteMs <= now - timestamp < (n + 1) * MinuteMs && r == NatToString(n) + "m ago"
    ensures HourMs <= now - timestamp < DayMs ==>
              exists n: nat :: 1 <= n <= 23 && n * HourMs <= now - timestamp < (n + 1) * HourMs && r == NatToString(n) + "h ago"
    ensures DayMs <= now - timestamp < WeekMs ==>
              exists n: nat :: 1 <= n <= 6 && n * DayMs <= now - timestamp < (n + 1) * DayMs && r == NatToString(n) + "d ago"
  {
    SpanText(Bucket(now - timestamp), formatDate(timestamp))
  }

  /** The order of the buckets, finest first. */
  function Rank(s: Span): nat {
    match s
    case JustNow => 0
    case MinutesAgo(_) => 1
    case HoursAgo(_) => 2
    case DaysAgo(_) => 3
    case Dated => 4
  }

  /**
   * The buckets are ordered: a longer elapsed time never falls into a finer
   * bucket, and within a bucket its count never decreases.
   */
  lemma BucketMonotone(d1: int, d2: int)
    requires d1 <= d2
    ensures Rank(Bucket(d1)) <= Rank(Bucket(d2))
    ensures Rank(Bucket(d1)) == Rank(Bucket(d2)) && 1 <= Rank(Bucket(d1)) <= 3 ==> Bucket(d1).n <= Bucket(d2).n
  {
  }

  /** The last five characters of a relative line identify its bucket. */
  lemma {:induction false} UnitSuffix(a: string, u: string, b: string, v: string)
    requires |u| == 5 && |v| == 5 && a + u == b + v
    ensures a == b && u == v
  {
    assert |a| == |b|;
    assert a == (a + u)[..|a|] == (b + v)[..|b|] == b;
    assert u == (a + u)[|a|..] == (b + v)[|b|..] == v;
  }

  /**
   * A relative line determines its bucket and count: two elapsed times below
   * a week get the same text only when they fall into the same bucket with
   * the same count.
   */
  lemma TextDeterminesSpan(d1: int, d2: int, f: string)
    requires d1 < WeekMs && d2 < WeekMs
    requires SpanText(Bucket(d1), f) == SpanText(Bucket(d2), f)
    ensures Bucket(d1) == Bucket(d2)
  {
    var s1, s2 := Bucket(d1), Bucket(d2);
    var t := SpanText(s1, f);
    if s1 == JustNow || s2 == JustNow {
      if s1 != s2 {
        var other := if s1 == JustNow then s2 else s1;
        assert AllDigits(NatToString(other.n));
        assert t[0] == NatToString(other.n)[0];
      }
    } else {
      var u1 := if s1.MinutesAgo? then "m ago" else if s1.HoursAgo? then "h ago" else "d ago";
      var u2 := if s2.MinutesAgo? then "m ago" else if s2.HoursAgo? then "h ago" else "d ago";
      assert t == NatToString(s1.n) + u1 == NatToString(s2.n) + u2;
      UnitSuffix(NatToString(s1.n), u1, NatToString(s2.n), u2);
      assert u1[0] == u2[0];
      NatToStringInjective(s1.n, s2.n);
    }
  }
}
