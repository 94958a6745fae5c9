/** The landing page's mint countdown (Header.js): the `DD:HH:MM:SS`
    formatting of a count of seconds, the timer effect that steps
    `timeLeft` and `isButtonVisible`, and which element the page shows. */
module Countdown {
  import opened Js
  import opened Decimal

  /** The countdown's initial `timeLeft`: two days. */
  const InitialSeconds: nat := 172800

  datatype Clock = Clock(days: nat, hours: nat, minutes: nat, secs: nat)

  /** The seconds a clock reading stands for (a day is 3600 * 24 seconds). */
  function Seconds(c: Clock): nat {
    c.days * 86400 + c.hours * 3600 + c.minutes * 60 + c.secs
  }

  /** The four components `formatTime` computes: floor division and
      remainder, with hours taken from the remainder modulo a day and
      minutes from the remainder modulo an hour. */
  function ToClock(seconds: nat): (c: Clock)
    ensures c.hours < 24 && c.minutes < 60 && c.secs < 60
    ensures Seconds(c) == seconds
  {
    ClockArithmetic(seconds);
    Clock(seconds / 86400, (seconds % 86400) / 3600, (seconds % 3600) / 60, seconds % 60)
  }

  lemma ClockArithmetic(seconds: nat)
    ensures (seconds % 86400) / 3600 < 24
    ensures (seconds % 3600) / 60 < 60
    ensures (seconds / 86400) * 86400 + ((seconds % 86400) / 3600) * 3600
            + ((seconds % 3600) / 60) * 60 + seconds % 60 == seconds
  {
    var d, r := seconds / 86400, seconds % 86400;
    var h, r2 := r / 3600, r % 3600;
    HourRemainder(seconds, d * 24 + h, r2);
    var m, s := r2 / 60, r2 % 60;
    MinuteRemainder(seconds, (d * 24 + h) * 60 + m, s);
  }

  /** The remainder modulo an hour is the same whether taken of the count
      or of its remainder modulo a day. */
  lemma HourRemainder(x: nat, q: nat, r: nat)
    requires r < 3600 && x == q * 3600 + r
    ensures x % 3600 == r
  {
  }

  /** Likewise for the remainder modulo a minute. */
  lemma MinuteRemainder(x: nat, q: nat, r: nat)
    requires r < 60 && x == q * 60 + r
    ensures x % 60 == r
  {
  }

  /** One field of the display: `String(n).padStart(2, '0')`. */
  function Field(n: nat): (f: string)
    ensures |f| == if |FromNat(n)| >= 2 then |FromNat(n)| else 2
    ensures |f| >= 2 && AllDigits(f) && Value(f) == n
    ensures |f| >= |FromNat(n)| && f[|f| - |FromNat(n)|..] == FromNat(n)
    ensures ':' !in f
  {
    var f := PadStart(FromNat(n), 2, '0');
    ZeroPadKeepsValue(FromNat(n), 2);
    assert forall i :: 0 <= i < |f| ==> f[i] != ':' by {
      forall i | 0 <= i < |f| ensures f[i] != ':' {
        assert IsDigit(f[i]);
      }
    }
    f
  }

  /** The template literal of `formatTime`: four padded fields joined by `:`. */
  function Display(c: Clock): string {
    Field(c.days) + ":" + Field(c.hours) + ":" + Field(c.minutes) + ":" + Field(c.secs)
  }

  /** `formatTime(seconds)` for a non-negative integer count. Hours,
      minutes and seconds always take two characters; the day field takes
      two below ten days and the whole day numeral from then on. */
  function FormatTime(seconds: nat): (t: string)
    ensures |t| == (if seconds < 864000 then 2 else |FromNat(seconds / 86400)|) + 9
    ensures var p := SplitOn(t, ':');
            && |p| == 4
            && |p[0]| == (if seconds < 864000 then 2 else |FromNat(seconds / 86400)|)
            && |p[1]| == 2 && |p[2]| == 2 && |p[3]| == 2
  {
    var c := ToClock(seconds);
    DisplayWidth(c);
    DisplayFields(c);
    DaysBelowTen(seconds);
    Display(c)
  }

  /** Below a hundred, a field is exactly two characters wide. */
  lemma ShortFieldWidth(n: nat)
    requires n < 100
    ensures |Field(n)| == 2
  {
    FromNatShort(n);
  }

  /** The display of a clock in range: the day field and three fields of two. */
  lemma DisplayWidth(c: Clock)
    requires c.hours < 24 && c.minutes < 60 && c.secs < 60
    ensures |Field(c.days)| == (if c.days < 10 then 2 else |FromNat(c.days)|)
    ensures |Field(c.hours)| == 2 && |Field(c.minutes)| == 2 && |Field(c.secs)| == 2
    ensures |Display(c)| == (if c.days < 10 then 2 else |FromNat(c.days)|) + 9
  {
    ShortFieldWidth(c.hours);
    ShortFieldWidth(c.minutes);
    ShortFieldWidth(c.secs);
    FromNatShort(c.days);
  }

  lemma DaysBelowTen(seconds: nat)
    ensures seconds < 864000 <==> seconds / 86400 < 10
  {
  }

  /** `s.split(sep)`: the pieces between occurrences of `sep`. */
  function SplitOn(s: string, sep: char): (parts: seq<string>)
    ensures |parts| >= 1
    decreases |s|
  {
    if |s| == 0 then [""]
    else
      var rest := SplitOn(s[1..], sep);
      if s[0] == sep then [""] + rest else [[s[0]] + rest[0]] + rest[1..]
  }

  lemma {:induction false} SplitOnNoSeparator(a: string, sep: char)
    requires sep !in a
    ensures SplitOn(a, sep) == [a]
    decreases |a|
  {
    if |a| > 0 {
      assert sep !in a[1..];
      SplitOnNoSeparator(a[1..], sep);
      assert [a[0]] + a[1..] == a;
    }
  }

  /** Splitting at a last `:` adds the text after it as the last piece. */
  lemma {:induction false} SplitOnLastColon(a: string, b: string)
    requires ':' !in b
    ensures SplitOn(a + ":" + b, ':') == SplitOn(a, ':') + [b]
    decreases |a|
  {
    var s := a + ":" + b;
    if |a| == 0 {
      assert s == [':'] + b && s[1..] == b;
      SplitOnNoSeparator(b, ':');
    } else {
      assert s[0] == a[0] && s[1..] == a[1..] + ":" + b;
      SplitOnLastColon(a[1..], b);
    }
  }

  /** Reads a `DD:HH:MM:SS` display back into the count of seconds it shows:
      four `:`-separated numerals, days first. */
  function ParseTime(t: string): Option<nat> {
    var parts := SplitOn(t, ':');
    if |parts| == 4 && AllDigits(parts[0]) && AllDigits(parts[1]) && AllDigits(parts[2]) && AllDigits(parts[3]) then
      Some(Seconds(Clock(Value(parts[0]), Value(parts[1]), Value(parts[2]), Value(parts[3]))))
    else None
  }

  /** The display is exactly four `:`-separated fields, in the order days,
      hours, minutes, seconds, each a zero-padded numeral of at least two
      digits that ends in the full numeral of its component. */
  lemma DisplayFields(c: Clock)
    ensures SplitOn(Display(c), ':') == [Field(c.days), Field(c.hours), Field(c.minutes), Field(c.secs)]
  {
    SplitFour(Field(c.days), Field(c.hours), Field(c.minutes), Field(c.secs));
  }

  /** Reading a display back yields the seconds its clock stands for. */
  lemma DisplayRoundTrip(c: Clock)
    ensures ParseTime(Display(c)) == Some(Seconds(c))
  {
    var d, h, m, s := Field(c.days), Field(c.hours), Field(c.minutes), Field(c.secs);
    ParseFour(d, h, m, s);
    assert Clock(Value(d), Value(h), Value(m), Value(s)) == c;
  }

  /** Four numerals joined by `:` parse to the clock they spell. */
  lemma ParseFour(a: string, b: string, c: string, d: string)
    requires AllDigits(a) && AllDigits(b) && AllDigits(c) && AllDigits(d)
    requires ':' !in a && ':' !in b && ':' !in c && ':' !in d
    ensures ParseTime(a + ":" + b + ":" + c + ":" + d) == Some(Seconds(Clock(Value(a), Value(b), Value(c), Value(d))))
  {
    var t := a + ":" + b + ":" + c + ":" + d;
    SplitFour(a, b, c, d);
    var parts := SplitOn(t, ':');
    assert parts[0] == a && parts[1] == b && parts[2] == c && parts[3] == d;
  }

  lemma SplitFour(a: string, b: string, c: string, d: string)
    requires ':' !in a && ':' !in b && ':' !in c && ':' !in d
    ensures SplitOn(a + ":" + b + ":" + c + ":" + d, ':') == [a, b, c, d]
  {
    SplitOnNoSeparator(a, ':');
    SplitOnLastColon(a, b);
    SplitOnLastColon(a + ":" + b, c);
    SplitOnLastColon(a + ":" + b + ":" + c, d);
  }

  /** Reading the display back yields the count it was made from. */
  lemma FormatTimeRoundTrip(seconds: nat)
    ensures ParseTime(FormatTime(seconds)) == Some(seconds)
  {
    DisplayRoundTrip(ToClock(seconds));
  }

  /** Different counts never show the same text. */
  lemma FormatTimeInjective(a: nat, b: nat)
    ensures FormatTime(a) == FormatTime(b) ==> a == b
  {
    FormatTimeRoundTrip(a);
    FormatTimeRoundTrip(b);
  }

  /** A day count of 100 or more is shown whole: the first field has at
      least three digits and still denotes the day count. */
  lemma LongDayCountShownWhole(c: Clock)
    requires c.days >= 100
    ensures var days := SplitOn(Display(c), ':')[0];
            |days| >= 3 && AllDigits(days) && Value(days) == c.days
  {
    DisplayFields(c);
    FromNatThreeDigits(c.days);
  }

  /** The first text the page shows is two days. */
  lemma InitialDisplay()
    ensures FormatTime(InitialSeconds) == "02:00:00:00"
  {
    assert ToClock(InitialSeconds) == Clock(2, 0, 0, 0);
    assert FromNat(2) == "2" && FromNat(0) == "0";
    assert PadStart("2", 2, '0') == "02";
    assert PadStart("0", 2, '0') == "00";
  }

  /** The two pieces of React state the countdown effect reads and writes. */
  datatype Timer = Timer(timeLeft: int, isButtonVisible: bool)

  const InitialTimer := Timer(InitialSeconds, false)

  /** The states the effect can reach: the count never drops below zero and
      the button flag is only raised once it reaches zero. */
  predicate Valid(t: Timer) {
    t.timeLeft >= 0 && (t.isButtonVisible ==> t.timeLeft == 0)
  }

  /** One run of the effect: a positive count is lowered by one when its
      one-second timeout fires; a count that is not positive raises the
      button flag. */
  function Tick(t: Timer): (t': Timer)
    ensures t.timeLeft > 0 ==> t'.timeLeft == t.timeLeft - 1 && t'.isButtonVisible == t.isButtonVisible
    ensures t.timeLeft <= 0 ==> t'.timeLeft == t.timeLeft && t'.isButtonVisible
    ensures Valid(t) ==> Valid(t')
  {
    if t.timeLeft > 0 then t.(timeLeft := t.timeLeft - 1) else t.(isButtonVisible := true)
  }

  function Ticks(t: Timer, n: nat): Timer
    decreases n
  {
    if n == 0 then t else Tick(Ticks(t, n - 1))
  }

  /** After `n` runs of the effect the count has dropped by `n` but stopped
      at zero, and the button flag is up exactly when some run found zero. */
  lemma {:induction false} TicksFrom(t: Timer, n: nat)
    requires Valid(t)
    ensures Valid(Ticks(t, n))
    ensures Ticks(t, n).timeLeft == if n <= t.timeLeft then t.timeLeft - n else 0
    ensures Ticks(t, n).isButtonVisible <==> t.isButtonVisible || n > t.timeLeft
    decreases n
  {
    if n > 0 {
      TicksFrom(t, n - 1);
    }
  }

  /** What the hero section shows. */
  datatype View = CountdownText(time: string) | ExploreNow | Nothing

  function Render(t: Timer): (v: View)
    ensures v.CountdownText? <==> t.timeLeft > 0
    ensures v.CountdownText? ==> ParseTime(v.time) == Some(t.timeLeft)
    ensures v == ExploreNow <==> t.timeLeft <= 0 && t.isButtonVisible
    ensures v == Nothing <==> t.timeLeft <= 0 && !t.isButtonVisible
  {
    if t.timeLeft > 0 then
      FormatTimeRoundTrip(t.timeLeft);
      CountdownText(FormatTime(t.timeLeft))
    else if t.isButtonVisible then ExploreNow
    else Nothing
  }

  /** Starting from two days, the page shows the formatted remaining time
      for the first 172800 runs, nothing for the one render between the
      count reaching zero and the flag going up, and the button after. */
  lemma CountdownViews(n: nat)
    ensures n < InitialSeconds ==> Render(Ticks(InitialTimer, n)) == CountdownText(FormatTime(InitialSeconds - n))
    ensures n == InitialSeconds ==> Render(Ticks(InitialTimer, n)) == Nothing
    ensures n > InitialSeconds ==> Render(Ticks(InitialTimer, n)) == ExploreNow
  {
    TicksFrom(InitialTimer, n);
  }
}
