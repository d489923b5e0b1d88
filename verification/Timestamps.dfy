/** UTC instants and the fixed-width text the store keeps them in.
    An instant is the number of nanoseconds since 0000-01-01T00:00:00Z. */
module Timestamps {
  import opened Options
  import opened Text

  // ---- The proleptic Gregorian calendar ---------------------------------------

  predicate IsLeap(y: nat)
  {
    y % 4 == 0 && (y % 100 != 0 || y % 400 == 0)
  }

  function DaysInYear(y: nat): nat
  {
    if IsLeap(y) then 366 else 365
  }

  function DaysBeforeYear(y: nat): nat
  {
    if y == 0 then 0 else DaysBeforeYear(y - 1) + DaysInYear(y - 1)
  }

  /** Days before the month with index m, 0 being January and 12 the end of the year. */
  function DaysBeforeMonth(leap: bool, m: nat): nat
    requires m <= 12
  {
    var feb := if leap then 29 else 28;
    [0, 31, 31 + feb, 62 + feb, 92 + feb, 123 + feb, 153 + feb, 184 + feb, 215 + feb, 245 + feb, 276 + feb,
     306 + feb, 337 + feb][m]
  }

  function YearOf(day: nat, y: nat): (r: nat)
    requires DaysBeforeYear(y) <= day
    ensures DaysBeforeYear(r) <= day < DaysBeforeYear(r + 1)
    decreases day - DaysBeforeYear(y)
  {
    if day < DaysBeforeYear(y + 1) then y else YearOf(day, y + 1)
  }

  function MonthOf(leap: bool, day: nat, m: nat): (r: nat)
    requires m < 12 && DaysBeforeMonth(leap, m) <= day < DaysBeforeMonth(leap, 12)
    ensures r < 12 && DaysBeforeMonth(leap, r) <= day < DaysBeforeMonth(leap, r + 1)
    decreases 12 - m
  {
    if day < DaysBeforeMonth(leap, m + 1) then m else MonthOf(leap, day, m + 1)
  }

  lemma {:induction false} YearsIncrease(a: nat, b: nat)
    requires a <= b
    ensures DaysBeforeYear(a) <= DaysBeforeYear(b)
  {
    if a < b {
      YearsIncrease(a, b - 1);
    }
  }

  lemma MonthsIncrease(leap: bool, a: nat, b: nat)
    requires a <= b <= 12
    ensures DaysBeforeMonth(leap, a) <= DaysBeforeMonth(leap, b)
  {
  }

  // ---- Instants -----------------------------------------------------------------

  const SECOND: nat := 1_000_000_000
  const DAY: nat := 86_400

  /** Year, month and day of a day number. */
  function Date(day: nat): (f: seq<nat>)
    ensures |f| == 3
  {
    var y := YearOf(day, 0);
    var doy := day - DaysBeforeYear(y);
    assert doy < DaysBeforeMonth(IsLeap(y), 12);
    var m := MonthOf(IsLeap(y), doy, 0);
    [y, m + 1, doy - DaysBeforeMonth(IsLeap(y), m) + 1]
  }

  /** Hour, minute and second of a second of the day. */
  function Clock(sec: nat): (f: seq<nat>)
    ensures |f| == 3
  {
    [sec / 3600, sec / 60 % 60, sec % 60]
  }

  /** The six calendar fields of a whole second. */
  function Fields(sec: nat): (f: seq<nat>)
    ensures |f| == 6
  {
    Date(sec / DAY) + Clock(sec % DAY)
  }

  /** Instants whose year has four digits. */
  predicate FourDigitYear(t: nat)
  {
    Fields(t / SECOND)[0] < 10_000
  }

  const YEARS: nat := 10_000
  const DAYS: nat := 3_652_425
  const END_OF_TIME: nat := DAYS * DAY * SECOND

  /** Instants up to the end of year 9999. */
  type Instant = t: nat | t < END_OF_TIME

  /** The multiples of n below y. */
  function Multiples(y: nat, n: nat): nat
    requires n > 0
  {
    (y + n - 1) / n
  }

  lemma AtLeastOnce(n: nat, k: int)
    ensures k >= 1 ==> n * k >= n
  {
  }

  lemma Quotient(a: nat, n: nat, q: nat, r: nat)
    requires a == n * q + r && r < n
    ensures a / n == q
  {
    var p, s := a / n, a % n;
    assert a == n * p + s && s < n;
    AtLeastOnce(n, p - q);
    AtLeastOnce(n, q - p);
    assert n * (p - q) == n * p - n * q && n * (q - p) == n * q - n * p;
  }

  lemma NextMultiple(y: nat, n: nat)
    requires n > 1
    ensures Multiples(y + 1, n) == Multiples(y, n) + if y % n == 0 then 1 else 0
  {
    var q, r := y / n, y % n;
    assert y == n * q + r;
    assert n * (q + 1) == n * q + n;
    if r == 0 {
      Quotient(y + n, n, q + 1, 0);
      Quotient(y + n - 1, n, q, n - 1);
    } else {
      Quotient(y + n, n, q + 1, r);
      Quotient(y + n - 1, n, q + 1, r - 1);
    }
  }

  lemma Centuries(y: nat)
    ensures y % 400 == 0 ==> y % 100 == 0
    ensures y % 100 == 0 ==> y % 4 == 0
  {
    MultipleOf(y, 100, 4);
    MultipleOf(y, 4, 25);
  }

  lemma MultipleOf(y: nat, n: nat, k: nat)
    requires n > 0 && k > 0
    ensures y % (n * k) == 0 ==> y % n == 0
  {
    var q := y / (n * k);
    assert y == (n * k) * q + y % (n * k);
    if y % (n * k) == 0 {
      assert (n * k) * q == n * (k * q);
      Quotient(y, n, k * q, 0);
    }
  }

  lemma {:induction false} YearStart(y: nat)
    ensures DaysBeforeYear(y) == 365 * y + Multiples(y, 4) - Multiples(y, 100) + Multiples(y, 400)
  {
    if y > 0 {
      YearStart(y - 1);
      NextMultiple(y - 1, 4);
      NextMultiple(y - 1, 100);
      NextMultiple(y - 1, 400);
      Centuries(y - 1);
      hide Multiples;
    }
  }

  lemma InstantYear(t: Instant)
    ensures FourDigitYear(t)
  {
    assert DaysBeforeYear(0) == 0;
    hide DaysBeforeYear;
    var day := t / SECOND / DAY;
    assert day < DAYS;
    YearStart(YEARS);
    var y := YearOf(day, 0);
    if y >= YEARS {
      YearsIncrease(YEARS, y);
      assert false;
    }
  }

  predicate ValidFields(f: seq<nat>)
    requires |f| == 6
  {
    && 1 <= f[1] <= 12
    && 1 <= f[2] <= DaysBeforeMonth(IsLeap(f[0]), f[1]) - DaysBeforeMonth(IsLeap(f[0]), f[1] - 1)
    && f[3] < 24 && f[4] < 60 && f[5] < 60
  }

  function DayNumber(y: nat, m: nat, d: nat): nat
    requires 1 <= m <= 12 && 1 <= d
  {
    DaysBeforeYear(y) + DaysBeforeMonth(IsLeap(y), m - 1) + d - 1
  }

  function FromFields(f: seq<nat>): nat
    requires |f| == 6 && ValidFields(f)
  {
    DayNumber(f[0], f[1], f[2]) * DAY + f[3] * 3600 + f[4] * 60 + f[5]
  }

  lemma FieldsInverse(sec: nat)
    ensures ValidFields(Fields(sec)) && FromFields(Fields(sec)) == sec
  {
    DateInverse(sec / DAY);
    Sexagesimal(sec % DAY);
    Recompose(sec, Date(sec / DAY), Clock(sec % DAY));
  }

  lemma DateInverse(day: nat)
    ensures var f := Date(day);
            && 1 <= f[1] <= 12 && 1 <= f[2] && DayNumber(f[0], f[1], f[2]) == day
            && f[2] <= DaysBeforeMonth(IsLeap(f[0]), f[1]) - DaysBeforeMonth(IsLeap(f[0]), f[1] - 1)
  {
  }

  lemma Sexagesimal(p: nat)
    ensures p == p / 3600 * 3600 + p / 60 % 60 * 60 + p % 60
  {
  }

  lemma Recompose(sec: nat, d: seq<nat>, c: seq<nat>)
    requires |d| == 3 && |c| == 3 && ValidFields(d + c)
    requires DayNumber(d[0], d[1], d[2]) == sec / DAY
    requires c[0] * 3600 + c[1] * 60 + c[2] == sec % DAY
    ensures FromFields(d + c) == sec
  {
  }

  predicate LexLess(f: seq<nat>, g: seq<nat>)
    requires |f| == |g|
  {
    f != [] && (f[0] < g[0] || (f[0] == g[0] && LexLess(f[1..], g[1..])))
  }

  lemma LexLess3(f: seq<nat>, g: seq<nat>)
    requires |f| == |g| == 3
    ensures LexLess(f, g) <==>
              f[0] < g[0] || (f[0] == g[0] && (f[1] < g[1] || (f[1] == g[1] && f[2] < g[2])))
  {
    assert f[1..][1..] == f[2..] && g[1..][1..] == g[2..];
    assert LexLess(f[1..], g[1..]) <==> f[1] < g[1] || (f[1] == g[1] && LexLess(f[2..], g[2..]));
    assert LexLess(f[2..], g[2..]) <==> f[2] < g[2] || (f[2] == g[2] && LexLess(f[2..][1..], g[2..][1..]));
  }

  lemma {:induction false} LexLessAppend(f: seq<nat>, g: seq<nat>, x: seq<nat>, y: seq<nat>)
    requires |f| == |g| && |x| == |y|
    ensures LexLess(f + x, g + y) <==> LexLess(f, g) || (f == g && LexLess(x, y))
  {
    if f == [] {
      assert f + x == x && g + y == y;
    } else {
      assert (f + x)[1..] == f[1..] + x && (g + y)[1..] == g[1..] + y;
      LexLessAppend(f[1..], g[1..], x, y);
      assert f == [f[0]] + f[1..] && g == [g[0]] + g[1..];
    }
  }

  lemma DateOrder(a: nat, b: nat)
    requires a < b
    ensures LexLess(Date(a), Date(b))
  {
    var f, g := Date(a), Date(b);
    LexLess3(f, g);
    if f[0] > g[0] {
      YearsIncrease(g[0] + 1, f[0]);
    } else if f[0] == g[0] && f[1] > g[1] {
      MonthsIncrease(IsLeap(f[0]), g[1], f[1] - 1);
    }
  }

  lemma ClockOrder(a: nat, b: nat)
    requires a < b
    ensures LexLess(Clock(a), Clock(b))
  {
    LexLess3(Clock(a), Clock(b));
    Sexagesimal(a);
    Sexagesimal(b);
  }

  lemma FieldsOrder(s: nat, t: nat)
    requires s < t
    ensures LexLess(Fields(s), Fields(t))
  {
    LexLessAppend(Date(s / DAY), Date(t / DAY), Clock(s % DAY), Clock(t % DAY));
    if s / DAY < t / DAY {
      DateOrder(s / DAY, t / DAY);
    } else {
      ClockOrder(s % DAY, t % DAY);
    }
  }

  // ---- Fixed-width numbers -----------------------------------------------------------

  function Pow10(w: nat): nat
  {
    if w == 0 then 1 else 10 * Pow10(w - 1)
  }

  function Pad(n: nat, w: nat): (s: string)
    ensures |s| == w && forall c :: c in s ==> IsDigit(c)
  {
    if w == 0 then "" else Pad(n / 10, w - 1) + [Digit(n % 10)]
  }

  lemma {:induction false} PadLess(a: nat, b: nat, w: nat)
    requires a < b < Pow10(w)
    ensures Less(Pad(a, w), Pad(b, w))
  {
    if a / 10 < b / 10 {
      PadLess(a / 10, b / 10, w - 1);
      LessByPrefix(Pad(a / 10, w - 1), Pad(b / 10, w - 1), [Digit(a % 10)], [Digit(b % 10)]);
    } else {
      LessSamePrefix(Pad(a / 10, w - 1), [Digit(a % 10)], [Digit(b % 10)]);
    }
  }

  lemma {:induction false} AtoiPad(n: nat, w: nat)
    requires n < Pow10(w)
    ensures Atoi(Pad(n, w)) == n
  {
    if w > 0 {
      AtoiPad(n / 10, w - 1);
      assert Pad(n, w)[..w - 1] == Pad(n / 10, w - 1);
    }
  }

  // ---- The layout "2006-01-02T15:04:05.000000000Z" ------------------------------------

  /** The width of each calendar field and the character after it. */
  const WIDTHS: seq<nat> := [4, 2, 2, 2, 2, 2]
  const SEPARATORS: string := "--T::."

  /** Each field at its width, followed by its separator. */
  function Render(f: seq<nat>, ws: seq<nat>, seps: string): (s: string)
    requires |f| == |ws| == |seps|
  {
    if f == [] then "" else Pad(f[0], ws[0]) + ([seps[0]] + Render(f[1..], ws[1..], seps[1..]))
  }

  const FRACTION_WIDTH: nat := 9

  function Nanos(n: nat): string
  {
    Pad(n, FRACTION_WIDTH) + "Z"
  }

  /** formatUTCTimestamp */
  function Format(t: nat): string
  {
    Render(Fields(t / SECOND), WIDTHS, SEPARATORS) + Nanos(t % SECOND)
  }

  ghost predicate Fits(f: seq<nat>, ws: seq<nat>)
    requires |f| == |ws|
  {
    forall i :: 0 <= i < |f| ==> f[i] < Pow10(ws[i])
  }

  lemma FieldsFit(t: Instant)
    ensures Fits(Fields(t / SECOND), WIDTHS)
  {
    InstantYear(t);
    FieldsInverse(t / SECOND);
    ValidFieldsFit(Fields(t / SECOND));
  }

  lemma ValidFieldsFit(f: seq<nat>)
    requires |f| == 6 && ValidFields(f) && f[0] < 10_000
    ensures Fits(f, WIDTHS)
  {
    assert Pow10(2) == 100;
    assert Pow10(4) == 100 * Pow10(2);
    assert f[2] <= 31;
  }

  lemma NanosOrder(m: nat, n: nat)
    requires m < n < SECOND
    ensures Less(Nanos(m), Nanos(n))
  {
    NanosFit(n);
    PadLess(m, n, FRACTION_WIDTH);
    LessByPrefix(Pad(m, FRACTION_WIDTH), Pad(n, FRACTION_WIDTH), "Z", "Z");
  }

  lemma NanosFit(n: nat)
    requires n < SECOND
    ensures n < Pow10(FRACTION_WIDTH)
  {
    assert Pow10(9) == SECOND;
  }

  /** One more field in front of two texts. */
  lemma FieldInFront(a: nat, b: nat, w: nat, sep: char, x: string, y: string)
    requires a < Pow10(w) && b < Pow10(w)
    requires a < b || (a == b && Less(x, y))
    ensures Less(Pad(a, w) + ([sep] + x), Pad(b, w) + ([sep] + y))
  {
    if a < b {
      PadLess(a, b, w);
      LessByPrefix(Pad(a, w), Pad(b, w), [sep] + x, [sep] + y);
    } else {
      LessSamePrefix([sep], x, y);
      LessSamePrefix(Pad(a, w), [sep] + x, [sep] + y);
    }
  }

  lemma RenderFirst(f: seq<nat>, ws: seq<nat>, seps: string, x: string)
    requires |f| == |ws| == |seps| && f != []
    ensures Render(f, ws, seps) + x == Pad(f[0], ws[0]) + ([seps[0]] + (Render(f[1..], ws[1..], seps[1..]) + x))
  {
    hide Pad;
    Regroup(Pad(f[0], ws[0]), seps[0], Render(f[1..], ws[1..], seps[1..]), x);
  }

  lemma Regroup(a: string, c: char, b: string, x: string)
    ensures a + ([c] + b) + x == a + ([c] + (b + x))
  {
  }

  lemma RenderNone(f: seq<nat>, ws: seq<nat>, seps: string, x: string)
    requires |f| == |ws| == |seps| && f == []
    ensures Render(f, ws, seps) + x == x
  {
  }

  lemma {:induction false} RenderOrder(f: seq<nat>, g: seq<nat>, ws: seq<nat>, seps: string, x: string, y: string)
    requires |f| == |g| == |ws| == |seps| && Fits(f, ws) && Fits(g, ws)
    requires LexLess(f, g) || (f == g && Less(x, y))
    ensures Less(Render(f, ws, seps) + x, Render(g, ws, seps) + y)
  {
    hide Pad, Less, Pow10, Render;
    if f == [] {
      RenderNone(f, ws, seps, x);
      RenderNone(g, ws, seps, y);
    } else {
      if f[0] == g[0] {
        RenderOrder(f[1..], g[1..], ws[1..], seps[1..], x, y);
      }
      FieldInFront(f[0], g[0], ws[0], seps[0], Render(f[1..], ws[1..], seps[1..]) + x,
                   Render(g[1..], ws[1..], seps[1..]) + y);
      RenderFirst(f, ws, seps, x);
      RenderFirst(g, ws, seps, y);
    }
  }

  lemma FormatIncreases(s: Instant, t: Instant)
    requires s < t
    ensures Less(Format(s), Format(t))
  {
    FieldsFit(s);
    FieldsFit(t);
    if s / SECOND < t / SECOND {
      FieldsOrder(s / SECOND, t / SECOND);
    } else {
      NanosOrder(s % SECOND, t % SECOND);
    }
    RenderOrder(Fields(s / SECOND), Fields(t / SECOND), WIDTHS, SEPARATORS, Nanos(s % SECOND), Nanos(t % SECOND));
  }

  /** Text order of stored timestamps is time order: the SQL guards, which compare text, agree with
      the Go pre-checks, which compare instants. */
  lemma FormatOrder(s: Instant, t: Instant)
    ensures Less(Format(s), Format(t)) <==> s < t
    ensures Format(s) == Format(t) <==> s == t
  {
    LessIrreflexive(Format(s));
    if s < t {
      FormatIncreases(s, t);
    } else if t < s {
      FormatIncreases(t, s);
      if Less(Format(s), Format(t)) {
        LessTransitive(Format(s), Format(t), Format(s));
      }
    }
  }

  // ---- Parsing --------------------------------------------------------------------------

  predicate AllDigits(s: string)
  {
    forall c :: c in s ==> IsDigit(c)
  }

  /** Reads one field after the other, each followed by its separator, and returns the rest of the text. */
  function ParseFields(s: string, ws: seq<nat>, seps: string): (r: Option<(seq<nat>, string)>)
    requires |ws| == |seps|
    ensures r.Some? ==> |r.value.0| == |ws|
  {
    if ws == [] then Some(([], s))
    else
      var w := ws[0];
      if |s| <= w || !AllDigits(s[..w]) || s[w] != seps[0] then None
      else
        var rest := ParseFields(s[w + 1..], ws[1..], seps[1..]);
        if rest.None? then None else Some(([Atoi(s[..w])] + rest.value.0, rest.value.1))
  }

  /** One to nine digits and "Z". */
  function ParseNanos(s: string): Option<nat>
  {
    if |s| < 2 || s[|s| - 1] != 'Z' || |s| - 1 > FRACTION_WIDTH || !AllDigits(s[..|s| - 1]) then None
    else Some(Atoi(s[..|s| - 1]) * Pow10(FRACTION_WIDTH - (|s| - 1)))
  }

  /** parseUTCTimestamp. A text written before the width was fixed may have a shorter fraction, or
      none and then no point either. */
  function Parse(s: string): Option<nat>
  {
    var f := ParseFields(s, WIDTHS, SEPARATORS);
    if f.Some? then
      var n := ParseNanos(f.value.1);
      if n.Some? && ValidFields(f.value.0) then Some(FromFields(f.value.0) * SECOND + n.value) else None
    else if s != "" && s[|s| - 1] == 'Z' then
      var g := ParseFields(s[..|s| - 1] + ".", WIDTHS, SEPARATORS);
      if g.Some? && g.value.1 == "" && ValidFields(g.value.0) then Some(FromFields(g.value.0) * SECOND) else None
    else None
  }

  lemma {:induction false} ParseRender(f: seq<nat>, ws: seq<nat>, seps: string, rest: string)
    requires |f| == |ws| == |seps| && Fits(f, ws)
    ensures ParseFields(Render(f, ws, seps) + rest, ws, seps) == Some((f, rest))
  {
    var s := Render(f, ws, seps) + rest;
    if f == [] {
      assert s == rest;
    } else {
      ParseRender(f[1..], ws[1..], seps[1..], rest);
      AtoiPad(f[0], ws[0]);
      assert s[..ws[0]] == Pad(f[0], ws[0]);
      assert s[ws[0] + 1..] == Render(f[1..], ws[1..], seps[1..]) + rest;
      assert f == [f[0]] + f[1..];
    }
  }

  lemma ParseText(sec: nat, rest: string, n: nat)
    requires Fits(Fields(sec), WIDTHS) && ParseNanos(rest) == Some(n)
    ensures Parse(Render(Fields(sec), WIDTHS, SEPARATORS) + rest) == Some(sec * SECOND + n)
  {
    hide Fields, Render, Fits, FromFields, ValidFields, ParseFields, ParseNanos;
    ParseRender(Fields(sec), WIDTHS, SEPARATORS, rest);
    FieldsInverse(sec);
  }

  /** What the store writes it reads back. */
  lemma ParseFormat(t: Instant)
    ensures Parse(Format(t)) == Some(t)
  {
    var n := t % SECOND;
    FieldsFit(t);
    NanosFit(n);
    AtoiPad(n, FRACTION_WIDTH);
    assert Nanos(n)[..|Nanos(n)| - 1] == Pad(n, FRACTION_WIDTH);
    ParseText(t / SECOND, Nanos(n), n);
  }

  // ---- The shape of a timestamp -----------------------------------------------------------------------------

  /** Thirty days have April, June, September and November, and February 28 or 29. */
  lemma MonthLengths(leap: bool, m: nat)
    requires 1 <= m <= 12
    ensures DaysBeforeMonth(leap, m) - DaysBeforeMonth(leap, m - 1)
         == if m == 2 then if leap then 29 else 28 else if m == 4 || m == 6 || m == 9 || m == 11 then 30 else 31
  {
  }

  lemma {:induction false} RenderedField(f: seq<nat>, ws: seq<nat>, seps: string, i: nat, at: nat)
    requires |f| == |ws| == |seps| && i < |f| && at == Before(ws, i)
    ensures var s := Render(f, ws, seps);
            at + ws[i] < |s| && s[at..at + ws[i]] == Pad(f[i], ws[i]) && s[at + ws[i]] == seps[i]
  {
    var s, first := Render(f, ws, seps), Pad(f[0], ws[0]);
    var tail := Render(f[1..], ws[1..], seps[1..]);
    assert s == first + ([seps[0]] + tail);
    if i == 0 {
      assert s[0..ws[0]] == first;
    } else {
      RenderedField(f[1..], ws[1..], seps[1..], i - 1, at - ws[0] - 1);
      assert s[at..at + ws[i]] == tail[at - ws[0] - 1..at - ws[0] - 1 + ws[i]];
    }
  }

  /** Where field i starts. */
  function Before(ws: seq<nat>, i: nat): nat
    requires i <= |ws|
  {
    if i == 0 then 0 else ws[0] + 1 + Before(ws[1..], i - 1)
  }

  lemma {:induction false} RenderedLength(f: seq<nat>, ws: seq<nat>, seps: string)
    requires |f| == |ws| == |seps|
    ensures |Render(f, ws, seps)| == Before(ws, |ws|)
  {
    if f != [] {
      RenderedLength(f[1..], ws[1..], seps[1..]);
    }
  }

  /**
   * Year, month, day, hour, minute, second and nanosecond each have their place and width, and so do the marks between
   * them.
   */
  lemma FormatLayout(t: Instant)
    ensures var s, f := Format(t), Fields(t / SECOND);
            && |s| == 30
            && s[0..4] == Pad(f[0], 4) && s[4] == '-' && s[5..7] == Pad(f[1], 2) && s[7] == '-'
            && s[8..10] == Pad(f[2], 2) && s[10] == 'T' && s[11..13] == Pad(f[3], 2) && s[13] == ':'
            && s[14..16] == Pad(f[4], 2) && s[16] == ':' && s[17..19] == Pad(f[5], 2) && s[19] == '.'
            && s[20..29] == Pad(t % 1_000_000_000, 9) && s[29] == 'Z'
  {
    hide Fields, Render, Pad;
    var f := Fields(t / SECOND);
    var r := Render(f, WIDTHS, SEPARATORS);
    Places();
    RenderedLength(f, WIDTHS, SEPARATORS);
    RenderedField(f, WIDTHS, SEPARATORS, 0, 0);
    RenderedField(f, WIDTHS, SEPARATORS, 1, 5);
    RenderedField(f, WIDTHS, SEPARATORS, 2, 8);
    RenderedField(f, WIDTHS, SEPARATORS, 3, 11);
    RenderedField(f, WIDTHS, SEPARATORS, 4, 14);
    RenderedField(f, WIDTHS, SEPARATORS, 5, 17);
    assert forall i, j :: 0 <= i <= j <= |r| ==> (r + Nanos(t % SECOND))[i..j] == r[i..j];
    assert (r + Nanos(t % SECOND))[20..29] == Nanos(t % SECOND)[..9];
  }

  lemma Places()
    ensures Before(WIDTHS, 0) == 0 && Before(WIDTHS, 1) == 5 && Before(WIDTHS, 2) == 8 && Before(WIDTHS, 3) == 11
    ensures Before(WIDTHS, 4) == 14 && Before(WIDTHS, 5) == 17 && Before(WIDTHS, 6) == 20
  {
    assert WIDTHS[1..] == [2, 2, 2, 2, 2] && [2, 2, 2, 2, 2][1..] == [2, 2, 2, 2] && [2, 2, 2, 2][1..] == [2, 2, 2];
    assert [2, 2, 2][1..] == [2, 2] && [2, 2][1..] == [2] && [2][1..] == [];
  }
}
