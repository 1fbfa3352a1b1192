/** `formatTime`: seconds as `MM:SS`. Both revisions of the component carry the same
    definition. The arithmetic follows JavaScript on exact reals: `Math.floor` is the
    floor, `%` is the remainder truncated toward zero (it takes the sign of the
    dividend), `toString` writes a leading '-' for negatives, and `padStart(2, '0')`
    prepends zeros up to two characters. */
module Clock {
  import opened Environment

  /** JavaScript's `Math.trunc` on a real. */
  function Trunc(x: real): (r: int)
    ensures x >= 0.0 ==> r as real <= x < r as real + 1.0
    ensures x < 0.0 ==> r as real - 1.0 < x <= r as real
  {
    if x >= 0.0 then x.Floor else -((-x).Floor)
  }

  /** JavaScript's `x % 60` on a real: truncated division, so the remainder takes
      the sign of the dividend. */
  function Remainder60(x: real): (r: real)
    ensures x >= 0.0 ==> 0.0 <= r < 60.0
    ensures x < 0.0 ==> -60.0 < r <= 0.0
  {
    x - 60.0 * (Trunc(x / 60.0) as real)
  }

  /** `Math.floor(seconds / 60)` */
  function Minutes(seconds: real): int {
    (seconds / 60.0).Floor
  }

  /** `Math.floor(seconds % 60)` */
  function Secs(seconds: real): int {
    Remainder60(seconds).Floor
  }

  predicate IsDigit(c: char) {
    '0' <= c <= '9'
  }

  predicate AllDigits(t: string) {
    forall i :: 0 <= i < |t| ==> IsDigit(t[i])
  }

  function DigitChar(d: int): (c: char)
    requires 0 <= d < 10
    ensures IsDigit(c) && c as int - '0' as int == d
  {
    ('0' as int + d) as char
  }

  /** The number a string of decimal digits denotes (leading zeros allowed). */
  function DigitsValue(t: string): nat
    requires AllDigits(t)
  {
    if t == [] then 0 else 10 * DigitsValue(t[..|t| - 1]) + (t[|t| - 1] as int - '0' as int)
  }

  /** `n.toString()` for a natural number (its shape is `NatToDecimalShape`). */
  function NatToDecimal(n: nat): string {
    if n < 10 then [DigitChar(n)] else NatToDecimal(n / 10) + [DigitChar(n % 10)]
  }

  /** The decimal spelling is non-empty, all digits, without a leading zero, and
      one character long exactly below 10. */
  lemma {:induction false} NatToDecimalShape(n: nat)
    ensures var r := NatToDecimal(n);
      1 <= |r| && AllDigits(r) && (|r| > 1 ==> r[0] != '0') && (n < 10 <==> |r| == 1)
  {
    if n >= 10 {
      NatToDecimalShape(n / 10);
      var r := NatToDecimal(n);
      assert r == NatToDecimal(n / 10) + [DigitChar(n % 10)];
    }
  }

  /** `n.toString()` for an integer. */
  function IntToString(n: int): string {
    if n < 0 then "-" + NatToDecimal(-n) else NatToDecimal(n)
  }

  /** `t.padStart(width, fill)` with a one-character fill (its shape is `PadStartShape`). */
  function PadStart(t: string, width: nat, fill: char): string
    decreases width - |t|
  {
    if |t| >= width then t else PadStart([fill] + t, width, fill)
  }

  /** Padding reaches `width` (or keeps a longer input), keeps the input as the
      suffix, and adds only the fill character. */
  lemma {:induction false} PadStartShape(t: string, width: nat, fill: char)
    ensures var r := PadStart(t, width, fill);
      |r| == (if |t| >= width then |t| else width) && r[|r| - |t|..] == t &&
      forall i :: 0 <= i < |r| - |t| ==> r[i] == fill
    decreases width - |t|
  {
    if |t| < width {
      var t' := [fill] + t;
      PadStartShape(t', width, fill);
      var r := PadStart(t', width, fill);
      assert r[|r| - |t'|..] == t';
      assert r[|r| - |t|..] == t'[1..];
    }
  }

  /** `formatTime(seconds)` */
  function FormatTime(seconds: real): string {
    ClockText(Minutes(seconds), Secs(seconds))
  }

  /** The template literal of `formatTime`: both fields padded, joined by ':'. */
  function ClockText(minutes: int, secs: int): string {
    PadStart(IntToString(minutes), 2, '0') + ":" + PadStart(IntToString(secs), 2, '0')
  }

  /** How a consumer reads an `MM:SS` string back: digits, then ':', then exactly
      two digits. */
  function ReadClock(t: string): Option<(nat, nat)> {
    if |t| >= 4 && t[|t| - 3] == ':' && AllDigits(t[..|t| - 3]) && AllDigits(t[|t| - 2..])
    then Some((DigitsValue(t[..|t| - 3]), DigitsValue(t[|t| - 2..])))
    else None
  }

  /** For a non-negative time the two fields are whole minutes and the whole
      seconds left over: together they give back the whole number of seconds. */
  lemma ClockFields(seconds: real)
    requires seconds >= 0.0
    ensures 0 <= Secs(seconds) <= 59
    ensures Minutes(seconds) >= 0
    ensures Minutes(seconds) * 60 + Secs(seconds) == seconds.Floor
    ensures Minutes(seconds) == seconds.Floor / 60 && Secs(seconds) == seconds.Floor % 60
  {
    var m := Minutes(seconds);
    assert Trunc(seconds / 60.0) == m;
    var rem := seconds - 60.0 * (m as real);
    assert 0.0 <= rem < 60.0;
    assert Secs(seconds) == rem.Floor;
    var f := seconds.Floor;
    assert (f - 60 * m) as real <= rem < (f - 60 * m) as real + 1.0;
    assert rem.Floor == f - 60 * m;
  }

  lemma {:induction false} DecimalRoundTrip(n: nat)
    ensures AllDigits(NatToDecimal(n)) && DigitsValue(NatToDecimal(n)) == n
  {
    NatToDecimalShape(n);
    if n >= 10 {
      var r := NatToDecimal(n);
      assert r[..|r| - 1] == NatToDecimal(n / 10);
      DecimalRoundTrip(n / 10);
    }
  }

  lemma {:induction false} ZeroPrefixValue(t: string)
    requires AllDigits(t)
    ensures AllDigits(['0'] + t) && DigitsValue(['0'] + t) == DigitsValue(t)
    decreases |t|
  {
    var z := ['0'] + t;
    if t != [] {
      assert z[..|z| - 1] == ['0'] + t[..|t| - 1];
      ZeroPrefixValue(t[..|t| - 1]);
    } else {
      assert z[..|z| - 1] == [];
    }
  }

  /** Zero padding changes the spelling, not the number. */
  lemma {:induction false} ZeroPadValue(t: string, width: nat)
    requires AllDigits(t)
    ensures AllDigits(PadStart(t, width, '0'))
    ensures DigitsValue(PadStart(t, width, '0')) == DigitsValue(t)
    decreases width - |t|
  {
    if |t| < width {
      ZeroPrefixValue(t);
      ZeroPadValue(['0'] + t, width);
    }
  }

  /** A field below 100 is padded to exactly two digits. */
  lemma TwoDigitField(n: nat)
    requires n < 100
    ensures |PadStart(NatToDecimal(n), 2, '0')| == 2
  {
    NatToDecimalShape(n);
    PadStartShape(NatToDecimal(n), 2, '0');
    if n >= 10 {
      assert NatToDecimal(n) == NatToDecimal(n / 10) + [DigitChar(n % 10)];
    }
  }

  /** The shape of `formatTime` for a non-negative time: a minutes field of at
      least two digits, ':', a seconds field of exactly two digits, each denoting
      the clock field it stands for. */
  lemma FormatTimeLayout(seconds: real)
    requires seconds >= 0.0
    ensures Minutes(seconds) >= 0 && Secs(seconds) >= 0
    ensures ClockLayout(FormatTime(seconds), Minutes(seconds), Secs(seconds))
  {
    ClockFields(seconds);
    ClockTextLayout(Minutes(seconds), Secs(seconds));
  }

  lemma ClockTextLayout(m: nat, sec: nat)
    requires sec < 100
    ensures ClockLayout(ClockText(m, sec), m, sec)
  {
    var mm := PadStart(NatToDecimal(m), 2, '0');
    var ss := PadStart(NatToDecimal(sec), 2, '0');
    PaddedField(m);
    PaddedField(sec);
    TwoDigitField(sec);
    assert ClockText(m, sec) == mm + ":" + ss;
    Joined(mm, ss, m, sec);
  }

  /** `r` is a minutes field of at least two digits, ':', and a two-digit seconds
      field, denoting `m` and `sec`. */
  predicate ClockLayout(r: string, m: nat, sec: nat) {
    |r| >= 5 && r[|r| - 3] == ':' &&
    AllDigits(r[..|r| - 3]) && AllDigits(r[|r| - 2..]) &&
    DigitsValue(r[..|r| - 3]) == m && DigitsValue(r[|r| - 2..]) == sec
  }

  /** A padded `toString` field is all digits, at least two long, and denotes its number. */
  lemma PaddedField(n: nat)
    ensures var f := PadStart(NatToDecimal(n), 2, '0');
      |f| >= 2 && AllDigits(f) && DigitsValue(f) == n
  {
    DecimalRoundTrip(n);
    ZeroPadValue(NatToDecimal(n), 2);
    PadStartShape(NatToDecimal(n), 2, '0');
  }

  lemma Joined(a: string, b: string, m: nat, sec: nat)
    requires |a| >= 2 && |b| == 2 && AllDigits(a) && AllDigits(b)
    requires DigitsValue(a) == m && DigitsValue(b) == sec
    ensures ClockLayout(a + ":" + b, m, sec)
  {
    var r := a + ":" + b;
    assert r[..|r| - 3] == a && r[|r| - 2..] == b;
  }

  /** Reading a formatted non-negative time gives back its whole minutes and
      seconds: sub-second precision is the only thing lost. */
  lemma ReadFormatTime(seconds: real)
    requires seconds >= 0.0
    ensures ReadClock(FormatTime(seconds)) == Some((seconds.Floor / 60, seconds.Floor % 60))
  {
    FormatTimeLayout(seconds);
    ClockFields(seconds);
  }

  /** Two non-negative times format alike exactly when they agree on whole seconds. */
  lemma FormatTimeWholeSeconds(s: real, t: real)
    requires s >= 0.0 && t >= 0.0
    ensures FormatTime(s) == FormatTime(t) <==> s.Floor == t.Floor
  {
    ClockFields(s);
    ClockFields(t);
    if FormatTime(s) == FormatTime(t) {
      ReadFormatTime(s);
      ReadFormatTime(t);
      assert s.Floor == 60 * (s.Floor / 60) + s.Floor % 60;
      assert t.Floor == 60 * (t.Floor / 60) + t.Floor % 60;
    }
  }

  /** The submission example: 65.4 s and 130 s. */
  lemma FormatTimeExamples()
    ensures FormatTime(65.4) == "01:05"
    ensures FormatTime(130.0) == "02:10"
  {
    FieldsOf(65.4, 1, 5);
    FieldsOf(130.0, 2, 10);
    assert NatToDecimal(10) == NatToDecimal(1) + [DigitChar(0)];
  }

  lemma FormatTimeScenario()
    ensures FormatTime(15.0) == "00:15" && FormatTime(30.0) == "00:30"
  {
    FieldsOf(15.0, 0, 15);
    FieldsOf(30.0, 0, 30);
    assert NatToDecimal(15) == NatToDecimal(1) + [DigitChar(5)];
    assert NatToDecimal(30) == NatToDecimal(3) + [DigitChar(0)];
  }

  lemma FieldsOf(seconds: real, m: nat, sec: nat)
    requires seconds >= 0.0 && seconds.Floor == 60 * m + sec && sec < 60
    ensures FormatTime(seconds) == ClockText(m, sec)
  {
    ClockFields(seconds);
    var mm, ss := Minutes(seconds), Secs(seconds);
    assert (mm - m) * 60 == sec - ss;
    assert mm == m;
  }

  /** A negative time (reachable: the region correction does not clamp a negative
      start) formats with '-' signs that no `MM:SS` reader accepts. */
  lemma NegativeTimeUnreadable()
    ensures FormatTime(-2.0) == "-1:-2"
    ensures ReadClock(FormatTime(-2.0)) == None
  {
    assert Minutes(-2.0) == -1;
    assert Trunc(-2.0 / 60.0) == 0;
    assert Secs(-2.0) == -2;
    var r := FormatTime(-2.0);
    assert r == "-1:-2";
    assert !IsDigit(r[0]);
    assert !AllDigits(r[..|r| - 3]);
  }
}
