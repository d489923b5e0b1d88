/**
 * internal/storage/sqlite/migrations/006_normalize_legacy_timestamps.sql: texts with no fraction or a shorter one,
 * exactly when they sort against time, and what the migration makes of them.
 */
module LegacyTimestamps {
  import opened Options
  import opened Text
  import opened Timestamps

  // ---- The legacy layout ------------------------------------------------------------------

  predicate IsFraction(d: string)
  {
    |d| <= FRACTION_WIDTH && AllDigits(d)
  }

  /** Everything up to the seconds, with the point and without it. */
  function UpToPoint(t: Instant): string
  {
    Render(Fields(t / SECOND), WIDTHS, SEPARATORS)
  }

  function UpToSeconds(t: Instant): string
  {
    if UpToPoint(t) == "" then "" else UpToPoint(t)[..|UpToPoint(t)| - 1]
  }

  /** The fraction as it was written, with no point when there are no digits. */
  function Fraction(d: string): string
  {
    if d == "" then "Z" else "." + d + "Z"
  }

  /** A legacy text of the second t falls in. */
  function Legacy(t: Instant, d: string): string
  {
    UpToSeconds(t) + Fraction(d)
  }

  function Zeros(n: nat): (s: string)
    ensures |s| == n && AllDigits(s)
  {
    if n == 0 then "" else Zeros(n - 1) + "0"
  }

  function Padded(d: string): string
    requires |d| <= FRACTION_WIDTH
  {
    d + Zeros(FRACTION_WIDTH - |d|)
  }

  /** The instant a legacy text stands for. */
  function Meaning(t: Instant, d: string): nat
    requires IsFraction(d)
  {
    t / SECOND * SECOND + Atoi(d) * Pow10(FRACTION_WIDTH - |d|)
  }

  // ---- What the parser makes of it -----------------------------------------------------------

  lemma {:induction false} RenderLength(f: seq<nat>, ws: seq<nat>, seps: string)
    requires |f| == |ws| == |seps|
    ensures |Render(f, ws, seps)| == Total(ws) + |f|
    ensures f != [] ==> Render(f, ws, seps) != "" && Last(Render(f, ws, seps)) == seps[|seps| - 1]
  {
    if f != [] {
      RenderLength(f[1..], ws[1..], seps[1..]);
    }
  }

  function Last(s: string): char
    requires s != ""
  {
    s[|s| - 1]
  }

  function Total(ws: seq<nat>): nat
  {
    if ws == [] then 0 else ws[0] + Total(ws[1..])
  }

  lemma Lengths(t: Instant)
    ensures |UpToPoint(t)| == 20 && UpToPoint(t) == UpToSeconds(t) + "." && |UpToSeconds(t)| == 19
  {
    hide Fields, Render;
    RenderLength(Fields(t / SECOND), WIDTHS, SEPARATORS);
    assert Total(WIDTHS) == 14 by {
      assert Total([2]) == 2 && Total([2, 2]) == 4 && Total([2, 2, 2]) == 6 && Total([2, 2, 2, 2]) == 8;
      assert WIDTHS[1..] == [2, 2, 2, 2, 2] && [2, 2, 2, 2, 2][1..] == [2, 2, 2, 2];
    }
  }

  /** The last separator is missing. */
  lemma {:induction false} ParseMismatch(f: seq<nat>, ws: seq<nat>, seps: string, c: char)
    requires |f| == |ws| == |seps| && f != [] && Fits(f, ws) && c != seps[|seps| - 1]
    ensures Render(f, ws, seps) != "" && ParseFields(AllButLast(Render(f, ws, seps)) + [c], ws, seps) == None
  {
    var pad, tail := Pad(f[0], ws[0]), Render(f[1..], ws[1..], seps[1..]);
    var r := Render(f, ws, seps);
    assert r == pad + ([seps[0]] + tail);
    var s := AllButLast(r) + [c];
    if |f| == 1 {
      assert s == pad + [c] && s[..ws[0]] == pad;
    } else {
      ParseMismatch(f[1..], ws[1..], seps[1..], c);
      assert s == pad + ([seps[0]] + (AllButLast(tail) + [c]));
      assert s[..ws[0]] == pad && s[ws[0] + 1..] == AllButLast(tail) + [c];
    }
  }

  function AllButLast(s: string): string
  {
    if s == "" then "" else s[..|s| - 1]
  }

  lemma LegacyParses(t: Instant, d: string)
    requires IsFraction(d)
    ensures Parse(Legacy(t, d)) == Some(Meaning(t, d))
  {
    hide Fields, Render, Parse, Atoi, Pow10, Fits, Legacy, ParseNanos;
    if d == "" {
      WholeSecondParses(t);
      NoDigits();
    } else {
      FieldsFit(t);
      FractionParses(d);
      LegacyParts(t, d);
      ParseText(t / SECOND, d + "Z", Atoi(d) * Pow10(FRACTION_WIDTH - |d|));
    }
  }

  lemma FractionParses(d: string)
    requires IsFraction(d) && d != ""
    ensures ParseNanos(d + "Z") == Some(Atoi(d) * Pow10(FRACTION_WIDTH - |d|))
  {
    hide Atoi, Pow10, AllDigits;
    var s := d + "Z";
    assert |s| == |d| + 1 && s[|d|] == 'Z' && s[..|d|] == d;
  }

  lemma LegacyParts(t: Instant, d: string)
    requires d != ""
    ensures Legacy(t, d) == Render(Fields(t / SECOND), WIDTHS, SEPARATORS) + (d + "Z")
  {
    hide Render, Fields, UpToSeconds;
    Lengths(t);
    assert UpToSeconds(t) + ("." + d + "Z") == (UpToSeconds(t) + ".") + (d + "Z");
  }

  lemma WholeSecondParses(t: Instant)
    ensures Parse(Legacy(t, "")) == Some(t / SECOND * SECOND)
  {
    hide Fields, Render, FromFields, ValidFields, ParseFields;
    Lengths(t);
    FieldsFit(t);
    FieldsInverse(t / SECOND);
    ParseMismatch(Fields(t / SECOND), WIDTHS, SEPARATORS, 'Z');
    ParseRender(Fields(t / SECOND), WIDTHS, SEPARATORS, "");
    assert UpToPoint(t) + "" == UpToPoint(t);
    assert Legacy(t, "")[..19] == UpToSeconds(t);
  }

  lemma NoDigits()
    ensures Atoi("") == 0
  {
  }

  // ---- Digits as numbers ---------------------------------------------------------------------

  lemma {:induction false} AtoiZeros(d: string, k: nat)
    requires AllDigits(d)
    ensures Atoi(d + Zeros(k)) == Atoi(d) * Pow10(k)
  {
    if k == 0 {
      assert d + Zeros(0) == d;
    } else {
      var s := d + Zeros(k);
      assert s[..|s| - 1] == d + Zeros(k - 1);
      AtoiZeros(d, k - 1);
      TenTimes(Atoi(d), Pow10(k - 1));
    }
  }

  lemma TenTimes(a: nat, b: nat)
    ensures 10 * (a * b) == a * (10 * b)
  {
  }

  lemma {:induction false} PadAtoi(s: string)
    requires AllDigits(s)
    ensures Atoi(s) < Pow10(|s|) && Pad(Atoi(s), |s|) == s
  {
    if s != "" {
      var front, last := s[..|s| - 1], s[|s| - 1];
      assert last in s;
      PadAtoi(front);
      LastDigit(Atoi(front), last);
      assert s == front + [last];
    }
  }

  lemma LastDigit(n: nat, c: char)
    requires IsDigit(c)
    ensures var m := 10 * n + (c as int - '0' as int); m / 10 == n && Digit(m % 10) == c
  {
  }

  /** Digits of one width sort as numbers. */
  lemma NumericOrder(a: string, b: string)
    requires AllDigits(a) && AllDigits(b) && |a| == |b|
    ensures Atoi(a) < Atoi(b) <==> Less(a, b)
  {
    PadAtoi(a);
    PadAtoi(b);
    if Atoi(a) < Atoi(b) {
      PadLess(Atoi(a), Atoi(b), |a|);
    } else if Atoi(b) < Atoi(a) {
      PadLess(Atoi(b), Atoi(a), |a|);
      NotBoth(a, b);
    } else {
      LessIrreflexive(a);
    }
  }

  lemma NotBoth(a: string, b: string)
    requires Less(b, a)
    ensures !Less(a, b)
  {
    LessIrreflexive(a);
    if Less(a, b) {
      LessTransitive(a, b, a);
    }
  }

  // ---- When texts sort against time ------------------------------------------------------------

  /** a is a proper prefix of b, and what b adds is not all zeros. */
  predicate AddsTo(a: string, b: string)
  {
    |a| < |b| && b[..|a|] == a && exists i :: |a| <= i < |b| && b[i] != '0'
  }

  lemma {:induction false} BelowDigits(b: string, k: nat)
    requires AllDigits(b)
    ensures Less(Zeros(|b| + k), b + Zeros(k)) <==> exists i :: 0 <= i < |b| && b[i] != '0'
  {
    ZeroFirst(|b| + k);
    if b == "" {
      assert b + Zeros(k) == Zeros(k);
      LessIrreflexive(Zeros(k));
    } else {
      assert b[0] in b && IsDigit(b[0]);
      assert (b + Zeros(k))[1..] == b[1..] + Zeros(k);
      BelowDigits(b[1..], k);
      if b[0] == '0' {
        assert (exists i :: 0 <= i < |b| && b[i] != '0') <==> exists i :: 0 <= i < |b[1..]| && b[1..][i] != '0' by {
          if i :| 0 <= i < |b| && b[i] != '0' { assert b[1..][i - 1] == b[i]; }
          if i :| 0 <= i < |b[1..]| && b[1..][i] != '0' { assert b[i + 1] == b[1..][i]; }
        }
      }
    }
  }

  lemma {:induction false} ZeroFirst(n: nat)
    ensures n > 0 ==> Zeros(n)[0] == '0' && Zeros(n)[1..] == Zeros(n - 1)
  {
    if n > 1 {
      ZeroFirst(n - 1);
      assert Zeros(n)[1..] == Zeros(n - 1)[1..] + "0";
    }
  }

  /** Padded to one width, and as written with the closing Z. */
  lemma {:induction false} PaddedAgainstWritten(a: string, b: string, w: nat)
    requires AllDigits(a) && AllDigits(b) && |a| <= w && |b| <= w
    ensures Less(a + Zeros(w - |a|), b + Zeros(w - |b|)) && Less(b + "Z", a + "Z") <==> AddsTo(a, b)
    decreases |a|
  {
    if a == "" || b == "" {
      NothingWritten(a, b, w);
    } else {
      var x, y := a + Zeros(w - |a|), b + Zeros(w - |b|);
      assert a[0] in a && b[0] in b;
      assert x[1..] == a[1..] + Zeros(w - |a|) && y[1..] == b[1..] + Zeros(w - |b|);
      assert (a + "Z")[1..] == a[1..] + "Z" && (b + "Z")[1..] == b[1..] + "Z";
      PaddedAgainstWritten(a[1..], b[1..], w - 1);
      if a[0] == b[0] {
        AddsToTail(a, b);
      } else {
        SameHead(a, b);
      }
    }
  }

  lemma SameHead(a: string, b: string)
    requires a != ""
    ensures AddsTo(a, b) ==> b != "" && b[0] == a[0]
  {
    if AddsTo(a, b) {
      assert b[..|a|][0] == b[0];
    }
  }

  lemma NothingWritten(a: string, b: string, w: nat)
    requires AllDigits(a) && AllDigits(b) && |a| <= w && |b| <= w && (a == "" || b == "")
    ensures Less(a + Zeros(w - |a|), b + Zeros(w - |b|)) && Less(b + "Z", a + "Z") <==> AddsTo(a, b)
  {
    LessIrreflexive("Z");
    if b == "" {
      assert b + "Z" == "Z";
      if a != "" {
        assert a[0] in a;
      } else {
        assert a + "Z" == "Z";
      }
    } else {
      assert b[0] in b && a + "Z" == "Z" && a + Zeros(w) == Zeros(w);
      BelowDigits(b, w - |b|);
    }
  }

  lemma AddsToTail(a: string, b: string)
    requires a != "" && b != "" && a[0] == b[0]
    ensures AddsTo(a, b) <==> AddsTo(a[1..], b[1..])
  {
    if AddsTo(a, b) {
      var i :| |a| <= i < |b| && b[i] != '0';
      assert b[1..][i - 1] == b[i];
      assert b[1..][..|a| - 1] == b[..|a|][1..];
    }
    if AddsTo(a[1..], b[1..]) {
      var i :| |a[1..]| <= i < |b[1..]| && b[1..][i] != '0';
      assert b[i + 1] == b[1..][i];
      assert b[..|a|] == [b[0]] + b[1..][..|a| - 1] == a;
    }
  }

  lemma FractionOrder(a: string, b: string)
    requires AllDigits(a) && AllDigits(b)
    ensures Less(Fraction(b), Fraction(a)) <==> Less(b + "Z", a + "Z")
  {
    LessIrreflexive("Z");
    if a == "" {
      assert a + "Z" == "Z";
      if b == "" {
        assert b + "Z" == "Z";
      } else {
        assert b[0] in b;
      }
    } else {
      assert a[0] in a;
      if b == "" {
        assert b + "Z" == "Z";
      } else {
        assert "." + a + "Z" == "." + (a + "Z") && "." + b + "Z" == "." + (b + "Z");
        LessSamePrefix(".", b + "Z", a + "Z");
      }
    }
  }

  lemma MeaningOrder(t: Instant, a: string, b: string)
    requires IsFraction(a) && IsFraction(b)
    ensures Meaning(t, a) < Meaning(t, b) <==> Less(Padded(a), Padded(b))
  {
    AtoiZeros(a, FRACTION_WIDTH - |a|);
    AtoiZeros(b, FRACTION_WIDTH - |b|);
    NumericOrder(Padded(a), Padded(b));
  }

  /**
   * Two legacy texts of one second stand for an earlier and a later instant and yet sort the other way round if and
   * only if the later one's digits begin with the earlier one's and add something other than zeros.
   */
  lemma LegacyMisorders(t: Instant, a: string, b: string)
    requires IsFraction(a) && IsFraction(b)
    ensures var x, y := Parse(Legacy(t, a)), Parse(Legacy(t, b));
            && x.Some? && y.Some?
            && (x.value < y.value && Less(Legacy(t, b), Legacy(t, a)) <==> AddsTo(a, b))
  {
    hide Parse, Fraction, UpToSeconds, Meaning, AddsTo;
    LegacyParses(t, a);
    LegacyParses(t, b);
    MeaningOrder(t, a, b);
    PaddedAgainstWritten(a, b, FRACTION_WIDTH);
    FractionOrder(a, b);
    LessSamePrefix(UpToSeconds(t), Fraction(b), Fraction(a));
  }

  // ---- The migration ---------------------------------------------------------------------------

  const NINE_ZEROS := "000000000"

  /** The CASE the migration applies to every timestamp column. */
  function Normalized(s: string): string
  {
    var n := |s|;
    if n == 20 && s[19] == 'Z' then s[..19] + ("." + NINE_ZEROS + "Z")
    else if 22 <= n <= 30 && s[19] == '.' && s[n - 1] == 'Z' then s[..20] + (s[20..n - 1] + NINE_ZEROS)[..9] + "Z"
    else s
  }

  lemma NineZeros(k: nat)
    requires k <= 9
    ensures NINE_ZEROS == Zeros(9) && NINE_ZEROS[..k] == Zeros(k)
  {
    assert Zeros(1) == "0" && Zeros(2) == "00" && Zeros(3) == "000" && Zeros(4) == "0000" && Zeros(5) == "00000";
    assert Zeros(6) == "000000" && Zeros(7) == "0000000" && Zeros(8) == "00000000" && Zeros(9) == "000000000";
  }

  lemma NormalizedText(t: Instant, d: string)
    requires IsFraction(d)
    ensures Normalized(Legacy(t, d)) == UpToPoint(t) + (Padded(d) + "Z")
  {
    hide UpToPoint, UpToSeconds, Normalized, Padded;
    Lengths(t);
    if d == "" {
      WholeNormalized(UpToSeconds(t));
    } else {
      ShortNormalized(UpToSeconds(t), d);
    }
  }

  lemma WholeNormalized(head: string)
    requires |head| == 19
    ensures Normalized(head + "Z") == head + "." + (Padded("") + "Z")
  {
    hide Zeros, NINE_ZEROS;
    NineZeros(0);
    assert (head + "Z")[..19] == head;
    assert Padded("") == Zeros(9);
    assert head + ("." + NINE_ZEROS + "Z") == head + "." + (NINE_ZEROS + "Z");
  }

  lemma ShortNormalized(head: string, d: string)
    requires |head| == 19 && IsFraction(d) && d != ""
    ensures Normalized(head + ("." + d + "Z")) == head + "." + (Padded(d) + "Z")
  {
    hide Zeros;
    NineZeros(9 - |d|);
    var s := head + ("." + d + "Z");
    assert s[..20] == head + ".";
    assert s[20..|s| - 1] == d;
    PaddedNine(d);
  }

  lemma PaddedNine(d: string)
    requires |d| <= 9
    ensures (d + NINE_ZEROS)[..9] == Padded(d)
  {
    NineZeros(9 - |d|);
    assert (d + NINE_ZEROS)[..9] == d + NINE_ZEROS[..9 - |d|];
  }

  lemma MeaningParts(t: Instant, d: string)
    requires IsFraction(d)
    ensures Meaning(t, d) < END_OF_TIME && Meaning(t, d) / SECOND == t / SECOND
    ensures Meaning(t, d) % SECOND == Atoi(Padded(d)) && Pad(Atoi(Padded(d)), FRACTION_WIDTH) == Padded(d)
  {
    AtoiZeros(d, FRACTION_WIDTH - |d|);
    PadAtoi(Padded(d));
    var n := Atoi(Padded(d));
    assert Pow10(9) == 1_000_000_000;
    assert t / SECOND < DAYS * DAY;
    assert Meaning(t, d) == t / SECOND * SECOND + n;
  }

  /**
   * The migration keeps what a timestamp means and gives it the width the store writes, so that afterwards text order
   * is time order.
   */
  lemma MigrationNormalizes(t: Instant, d: string)
    requires IsFraction(d)
    ensures Meaning(t, d) < END_OF_TIME
    ensures Parse(Legacy(t, d)) == Some(Meaning(t, d)) == Parse(Normalized(Legacy(t, d)))
    ensures Normalized(Legacy(t, d)) == Format(Meaning(t, d))
  {
    hide Parse, Legacy, Normalized, Render, Fields, Meaning, Padded;
    LegacyParses(t, d);
    NormalizedText(t, d);
    MeaningParts(t, d);
    ParseFormat(Meaning(t, d));
  }
}
