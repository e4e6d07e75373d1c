/** Request signing for the AI platform: the hand-built timestamp must survive being parsed and formatted
    again by the verifying side, and the canonical string must determine what was signed. */
module SignedTimestamp {
  import opened Basics

  // ---- decimal numerals ----

  function Pow10(w: nat): nat {
    if w == 0 then 1 else 10 * Pow10(w - 1)
  }

  function Digit(d: nat): char
    requires d < 10
  {
    '0' + d as char
  }

  predicate IsDigit(c: char) {
    '0' <= c <= '9'
  }

  predicate AllDigits(s: string) {
    forall i :: 0 <= i < |s| ==> IsDigit(s[i])
  }

  /** The last `w` digits of n, the `%0wd` of the verifying side. */
  function Fixed(n: nat, w: nat): string {
    if w == 0 then "" else Fixed(n / 10, w - 1) + [Digit(n % 10)]
  }

  function Num(s: string): nat
    requires AllDigits(s)
  {
    if s == "" then 0 else 10 * Num(s[..|s| - 1]) + (s[|s| - 1] - '0') as nat
  }

  /** `String(n)` */
  function Dec(n: nat): string {
    if n < 10 then [Digit(n)] else Dec(n / 10) + [Digit(n % 10)]
  }

  function Zeros(n: nat): string {
    if n == 0 then "" else Zeros(n - 1) + "0"
  }

  /** `s.padStart(w, '0')` */
  function PadStart(s: string, w: nat): string {
    if |s| >= w then s else Zeros(w - |s|) + s
  }

  lemma {:induction false} FixedIsDigits(n: nat, w: nat)
    ensures |Fixed(n, w)| == w && AllDigits(Fixed(n, w))
  {
    if w > 0 {
      FixedIsDigits(n / 10, w - 1);
    }
  }

  lemma {:induction false} NumOfFixed(n: nat, w: nat)
    requires n < Pow10(w)
    ensures AllDigits(Fixed(n, w)) && Num(Fixed(n, w)) == n
  {
    FixedIsDigits(n, w);
    if w > 0 {
      NumOfFixed(n / 10, w - 1);
      assert Fixed(n, w)[..w - 1] == Fixed(n / 10, w - 1) by { FixedIsDigits(n / 10, w - 1); }
    }
  }

  lemma {:induction false} FixedOfNum(s: string)
    requires AllDigits(s)
    ensures Fixed(Num(s), |s|) == s && Num(s) < Pow10(|s|)
  {
    if s != "" {
      var init, last := s[..|s| - 1], s[|s| - 1];
      FixedOfNum(init);
      assert Num(s) / 10 == Num(init) && Num(s) % 10 == (last - '0') as nat;
      assert s == init + [last];
    }
  }

  lemma {:induction false} ZerosAreFixed(w: nat)
    ensures Fixed(0, w) == Zeros(w)
  {
    if w > 0 {
      ZerosAreFixed(w - 1);
    }
  }

  /** Padding a numeral that fits gives the fixed-width numeral. */
  lemma {:induction false} PadIsFixed(n: nat, w: nat)
    requires 0 < w && n < Pow10(w)
    ensures |Dec(n)| <= w && PadStart(Dec(n), w) == Fixed(n, w)
  {
    if n < 10 {
      ZerosAreFixed(w - 1);
      assert Fixed(n, w) == Zeros(w - 1) + [Digit(n)];
    } else {
      assert w > 1;
      PadIsFixed(n / 10, w - 1);
      assert PadStart(Dec(n), w) == PadStart(Dec(n / 10), w - 1) + [Digit(n % 10)];
    }
  }

  lemma {:induction false} DecLength(n: nat, w: nat)
    requires w > 0
    ensures |Dec(n)| <= w <==> n < Pow10(w)
    ensures |Dec(n)| >= 1 && AllDigits(Dec(n))
    decreases n
  {
    if n >= 10 {
      DecLength(n / 10, if w > 1 then w - 1 else 1);
    } else {
      Pow10AtLeast(w);
    }
  }

  lemma {:induction false} Pow10AtLeast(w: nat)
    requires w > 0
    ensures Pow10(w) >= 10
  {
    if w > 1 { Pow10AtLeast(w - 1); }
  }

  // ---- the two formats ----

  /** The UTC fields of a JavaScript date. */
  datatype Instant = Instant(year: nat, month: nat, day: nat, hour: nat, minute: nat, second: nat, millis: nat)

  /** A Python datetime in UTC. */
  datatype DateTime = DateTime(year: nat, month: nat, day: nat, hour: nat, minute: nat, second: nat, micros: nat)

  predicate Leap(year: nat) {
    year % 4 == 0 && (year % 100 != 0 || year % 400 == 0)
  }

  function DaysIn(year: nat, month: nat): nat {
    if month == 2 then if Leap(year) then 29 else 28
    else if month == 4 || month == 6 || month == 9 || month == 11 then 30 else 31
  }

  predicate OnCalendar(year: nat, month: nat, day: nat, hour: nat, minute: nat, second: nat) {
    1 <= month <= 12 && 1 <= day <= DaysIn(year, month) && hour <= 23 && minute <= 59 && second <= 59
  }

  predicate ValidInstant(i: Instant) {
    OnCalendar(i.year, i.month, i.day, i.hour, i.minute, i.second) && i.millis <= 999
  }

  /** The date and time up to the seconds, from its six numerals. */
  function Core(y: string, mo: string, d: string, h: string, mi: string, s: string): string {
    y + "-" + mo + "-" + d + "T" + h + ":" + mi + ":" + s
  }

  const UTC: string := "+00:00"

  function StampCore(i: Instant): string {
    Core(Dec(i.year), PadStart(Dec(i.month), 2), PadStart(Dec(i.day), 2),
         PadStart(Dec(i.hour), 2), PadStart(Dec(i.minute), 2), PadStart(Dec(i.second), 2))
  }

  function Fraction(millis: nat): string {
    var micros := millis * 1000;
    if micros > 0 then "." + PadStart(Dec(micros), 6) else ""
  }

  /** The client's timestamp: the year as it is, the rest padded, microseconds only when there are any. */
  function Stamp(i: Instant): string {
    StampCore(i) + Fraction(i.millis) + UTC
  }

  /** `Date.toISOString()` for four-digit years: three digits and a Z. */
  function IsoString(i: Instant): string {
    FixedCore(DateTime(i.year, i.month, i.day, i.hour, i.minute, i.second, 0)) + IsoTail(i.millis)
  }

  function IsoTail(millis: nat): string {
    "." + Fixed(millis, 3) + "Z"
  }

  function FixedCore(t: DateTime): string {
    Core(Fixed(t.year, 4), Fixed(t.month, 2), Fixed(t.day, 2), Fixed(t.hour, 2), Fixed(t.minute, 2), Fixed(t.second, 2))
  }

  function FormatTail(micros: nat): string {
    if micros == 0 then UTC else "." + Fixed(micros, 6) + UTC
  }

  /** Python's `isoformat()`. */
  function Format(t: DateTime): string {
    FixedCore(t) + FormatTail(t.micros)
  }

  /** The part after the seconds: an optional fraction of one to six digits, then Z or a zero offset. */
  function ParseTail(t: string): Option<nat> {
    if t == "Z" || t == UTC then Some(0)
    else
      var zone := if t != "" && t[|t| - 1] == 'Z' then 1 else 6;
      if |t| < zone + 2 || t[0] != '.' || |t| - zone - 1 > 6 then None
      else if t[|t| - zone..] != "Z" && t[|t| - zone..] != UTC then None
      else if !AllDigits(t[1..|t| - zone]) then None
      else Some(Num(t[1..|t| - zone]) * Pow10(6 - (|t| - zone - 1)))
  }

  predicate CoreShaped(s: string) {
    && |s| == 19
    && s[4] == '-' && s[7] == '-' && s[10] == 'T' && s[13] == ':' && s[16] == ':'
    && AllDigits(s[0..4]) && AllDigits(s[5..7]) && AllDigits(s[8..10])
    && AllDigits(s[11..13]) && AllDigits(s[14..16]) && AllDigits(s[17..19])
  }

  /** Parsing a date-time of section 5.6 of RFC 3339 whose offset is zero, with the field ranges Python checks. */
  function Parse(s: string): Option<DateTime> {
    if |s| < 19 || !CoreShaped(s[..19]) then None
    else
      var c := s[..19];
      var tail := ParseTail(s[19..]);
      var year, month, day := Num(c[0..4]), Num(c[5..7]), Num(c[8..10]);
      var hour, minute, second := Num(c[11..13]), Num(c[14..16]), Num(c[17..19]);
      if tail.None? || year == 0 || !OnCalendar(year, month, day, hour, minute, second) then None
      else Some(DateTime(year, month, day, hour, minute, second, tail.value))
  }

  // ---- round trips ----

  lemma Halves(a: string, b: string)
    ensures (a + b)[..|a|] == a && (a + b)[|a|..] == b
  {
  }

  /** Extending a string by a separator and a part. */
  lemma Extended(p: string, sep: char, part: string, c: string)
    requires c == p + [sep] + part
    ensures |c| == |p| + 1 + |part| && c[..|p|] == p && c[|p|] == sep && c[|p| + 1..] == part
  {
    Halves(p + [sep], part);
    Halves(p, [sep]);
    assert c[..|p|] == c[..|p| + 1][..|p|];
  }

  lemma CoreParts(y: string, mo: string, d: string, h: string, mi: string, s: string)
    requires |y| == 4 && |mo| == |d| == |h| == |mi| == |s| == 2
    ensures var c := Core(y, mo, d, h, mi, s);
            && |c| == 19 && c[4] == '-' && c[7] == '-' && c[10] == 'T' && c[13] == ':' && c[16] == ':'
            && c[0..4] == y && c[5..7] == mo && c[8..10] == d && c[11..13] == h && c[14..16] == mi && c[17..19] == s
  {
    var c7 := y + "-" + mo;
    var c10 := c7 + "-" + d;
    var c13 := c10 + "T" + h;
    var c16 := c13 + ":" + mi;
    var c := c16 + ":" + s;
    Extended(y, '-', mo, c7);
    Extended(c7, '-', d, c10);
    Extended(c10, 'T', h, c13);
    Extended(c13, ':', mi, c16);
    Extended(c16, ':', s, c);
    assert c[..16] == c16 && c[..13] == c16[..13] && c[..10] == c13[..10] && c[..7] == c10[..7];
    assert c[0..4] == c7[..4] && c[5..7] == c7[5..] && c[8..10] == c10[8..] && c[11..13] == c13[11..]
        && c[14..16] == c16[14..];
  }

  lemma CoreRebuilt(c: string)
    requires CoreShaped(c)
    ensures Core(c[0..4], c[5..7], c[8..10], c[11..13], c[14..16], c[17..19]) == c
  {
  }

  predicate ValidDateTime(t: DateTime) {
    1 <= t.year <= 9999 && OnCalendar(t.year, t.month, t.day, t.hour, t.minute, t.second) && t.micros <= 999_999
  }

  lemma Powers()
    ensures Pow10(0) == 1 && Pow10(2) == 100 && Pow10(3) == 1000 && Pow10(4) == 10_000 && Pow10(6) == 1_000_000
  {
    assert Pow10(1) == 10;
    assert Pow10(5) == 100_000;
  }

  lemma FixedCoreParses(t: DateTime)
    requires ValidDateTime(t)
    ensures var c := FixedCore(t);
            && CoreShaped(c)
            && Num(c[0..4]) == t.year && Num(c[5..7]) == t.month && Num(c[8..10]) == t.day
            && Num(c[11..13]) == t.hour && Num(c[14..16]) == t.minute && Num(c[17..19]) == t.second
  {
    Powers();
    NumOfFixed(t.year, 4); FixedIsDigits(t.year, 4);
    NumOfFixed(t.month, 2); FixedIsDigits(t.month, 2);
    NumOfFixed(t.day, 2); FixedIsDigits(t.day, 2);
    NumOfFixed(t.hour, 2); FixedIsDigits(t.hour, 2);
    NumOfFixed(t.minute, 2); FixedIsDigits(t.minute, 2);
    NumOfFixed(t.second, 2); FixedIsDigits(t.second, 2);
    CoreParts(Fixed(t.year, 4), Fixed(t.month, 2), Fixed(t.day, 2),
              Fixed(t.hour, 2), Fixed(t.minute, 2), Fixed(t.second, 2));
  }

  lemma FormatTailParses(micros: nat)
    requires micros <= 999_999
    ensures ParseTail(FormatTail(micros)) == Some(micros)
  {
    Powers();
    if micros > 0 {
      var t := FormatTail(micros);
      NumOfFixed(micros, 6);
      FixedIsDigits(micros, 6);
      assert |t| == 13 && t[12] == UTC[5] == '0';
      assert t[1..7] == Fixed(micros, 6) && t[7..] == UTC;
    }
  }

  /** The verifying side reads back what it writes. */
  lemma ParseOfFormat(t: DateTime)
    requires ValidDateTime(t)
    ensures Parse(Format(t)) == Some(t)
  {
    FixedCoreParses(t);
    FormatTailParses(t.micros);
    assert Format(t)[..19] == FixedCore(t) && Format(t)[19..] == FormatTail(t.micros);
  }

  lemma {:induction false} ZeroNumeral(s: string)
    requires AllDigits(s)
    ensures Num(s) == 0 <==> s == Zeros(|s|)
  {
    if s != "" {
      ZeroNumeral(s[..|s| - 1]);
      assert s == s[..|s| - 1] + [s[|s| - 1]];
      assert Zeros(|s|)[..|s| - 1] == Zeros(|s| - 1) by { ZerosAreFixed(|s| - 1); FixedIsDigits(0, |s| - 1); }
    }
  }

  lemma SixZeros()
    ensures Zeros(6) == "000000"
  {
    assert Zeros(1) == "0" && Zeros(2) == "00" && Zeros(3) == "000" && Zeros(4) == "0000" && Zeros(5) == "00000";
  }

  lemma {:induction false} PowersMultiply(l: nat, k: nat)
    ensures Pow10(l) * Pow10(k) == Pow10(l + k) && Pow10(k) >= 1
    decreases l + k
  {
    if k > 0 {
      PowersMultiply(l, k - 1);
    } else if l > 0 {
      PowersMultiply(l - 1, 0);
    }
  }

  lemma ScaledFraction(n: nat, l: nat)
    requires l <= 6 && n < Pow10(l)
    ensures n * Pow10(6 - l) <= 999_999
  {
    Powers();
    PowersMultiply(l, 6 - l);
    var p, k := Pow10(l), Pow10(6 - l);
    assert (n + 1) * k <= p * k by {
      assert (p - n - 1) * k >= 0;
    }
  }

  /** A fraction of at most six digits is less than a second. */
  lemma TailBelowSecond(t: string)
    requires ParseTail(t).Some?
    ensures ParseTail(t).value <= 999_999
  {
    if t != "Z" && t != UTC {
      var zone := if t[|t| - 1] == 'Z' then 1 else 6;
      var digits := t[1..|t| - zone];
      FixedOfNum(digits);
      ScaledFraction(Num(digits), |digits|);
    }
  }

  /** Whatever the verifying side accepts is a date and time that exists. */
  lemma AcceptedIsValid(s: string)
    requires Parse(s).Some?
    ensures ValidDateTime(Parse(s).value)
  {
    TailBelowSecond(s[19..]);
    Powers();
    FixedOfNum(s[..19][0..4]);
  }

  /** Parsing and formatting again is a normal form: it keeps the instant, and doing it twice is doing it once. */
  lemma FormatIsNormalForm(s: string)
    requires Parse(s).Some?
    ensures var f := Format(Parse(s).value);
            Parse(f) == Parse(s) && Format(Parse(f).value) == f
  {
    AcceptedIsValid(s);
    ParseOfFormat(Parse(s).value);
  }

  /** The tail in which Python writes. */
  predicate PythonTail(t: string) {
    t == UTC || (|t| == 13 && t[0] == '.' && t[7..] == UTC && t[1..7] != "000000")
  }

  /** The shape in which Python writes: a zero offset spelled out, and a fraction of six digits or none. */
  predicate PythonShaped(s: string) {
    |s| >= 19 && PythonTail(s[19..])
  }

  lemma FullFractionStableIff(t: string)
    requires |t| == 13 && t[0] == '.' && t[7..] == UTC && AllDigits(t[1..7])
    ensures FormatTail(Num(t[1..7])) == t <==> PythonTail(t)
  {
    var digits := t[1..7];
    FixedOfNum(digits);
    ZeroNumeral(digits);
    SixZeros();
    assert t == "." + digits + UTC;
  }

  lemma FormatTailShape(m: nat)
    ensures |FormatTail(m)| == 6 || |FormatTail(m)| == 13
    ensures FormatTail(m)[|FormatTail(m)| - 1] == '0'
  {
    FixedIsDigits(m, 6);
    assert UTC[5] == '0';
  }

  lemma TailStableIff(t: string)
    requires ParseTail(t).Some?
    ensures FormatTail(ParseTail(t).value) == t <==> PythonTail(t)
  {
    var m := ParseTail(t).value;
    FormatTailShape(m);
    if t != "Z" && t != UTC {
      var zone := if t[|t| - 1] == 'Z' then 1 else 6;
      var digits := t[1..|t| - zone];
      if zone == 6 && |digits| == 6 {
        assert Pow10(0) == 1;
        FullFractionStableIff(t);
      } else {
        assert (|t| != 13 && |t| != 6) || t[|t| - 1] == 'Z';
      }
    }
  }

  /** Six numerals that were read are written back as they were. */
  lemma CoreRewritten(s: string)
    requires Parse(s).Some?
    ensures FixedCore(Parse(s).value) == s[..19]
  {
    var c := s[..19];
    FixedOfNum(c[0..4]); FixedOfNum(c[5..7]); FixedOfNum(c[8..10]);
    FixedOfNum(c[11..13]); FixedOfNum(c[14..16]); FixedOfNum(c[17..19]);
    CoreRebuilt(c);
  }

  /** Of all timestamps the verifying side accepts, parsing and formatting again gives back the same string
      exactly for those of Python's shape. */
  lemma RoundTripIff(s: string)
    requires Parse(s).Some?
    ensures Format(Parse(s).value) == s <==> PythonShaped(s)
  {
    var t := Parse(s).value;
    CoreRewritten(s);
    TailStableIff(s[19..]);
    Halves(FixedCore(t), FormatTail(t.micros));
    assert s == s[..19] + s[19..];
  }

  function MicrosOf(i: Instant): DateTime {
    DateTime(i.year, i.month, i.day, i.hour, i.minute, i.second, i.millis * 1000)
  }

  lemma TwoDigits(n: nat)
    requires n < 100
    ensures PadStart(Dec(n), 2) == Fixed(n, 2)
  {
    Powers();
    PadIsFixed(n, 2);
  }

  lemma FourDigits(n: nat)
    requires 1000 <= n <= 9999
    ensures Dec(n) == Fixed(n, 4)
  {
    Powers();
    PadIsFixed(n, 4);
    DecLength(n, 3);
  }

  lemma StampTail(millis: nat)
    requires millis <= 999
    ensures FormatTail(millis * 1000) == Fraction(millis) + UTC
  {
    Powers();
    PadIsFixed(millis * 1000, 6);
    assert "" + UTC == UTC;
  }

  lemma StampCoreIsFixed(i: Instant)
    requires ValidInstant(i) && 1000 <= i.year <= 9999
    ensures StampCore(i) == FixedCore(MicrosOf(i))
  {
    FourDigits(i.year);
    TwoDigits(i.month); TwoDigits(i.day);
    TwoDigits(i.hour); TwoDigits(i.minute); TwoDigits(i.second);
  }

  lemma Associative(a: string, b: string, c: string)
    ensures a + b + c == a + (b + c)
  {
  }

  /** For every UTC instant with a four-digit year the timestamp is Python's own rendering of it. */
  lemma StampIsFormat(i: Instant)
    requires ValidInstant(i) && 1000 <= i.year <= 9999
    ensures Stamp(i) == Format(MicrosOf(i))
  {
    StampCoreIsFixed(i);
    StampTail(i.millis);
    Associative(StampCore(i), Fraction(i.millis), UTC);
  }

  /** So the signed string survives the verifying side's parse and format. */
  lemma StampSurvives(i: Instant)
    requires ValidInstant(i) && 1000 <= i.year <= 9999
    ensures Parse(Stamp(i)) == Some(MicrosOf(i))
    ensures Format(Parse(Stamp(i)).value) == Stamp(i)
  {
    StampIsFormat(i);
    ParseOfFormat(MicrosOf(i));
  }

  lemma InFront(c: string, tail: string)
    requires |c| == 19
    ensures var s := c + tail;
            && s[4] == c[4] && s[7] == c[7] && s[10] == c[10] && s[13] == c[13] && s[16] == c[16]
            && s[0..4] == c[0..4] && s[5..7] == c[5..7] && s[8..10] == c[8..10]
            && s[11..13] == c[11..13] && s[14..16] == c[14..16] && s[17..19] == c[17..19]
  {
  }

  lemma TailReads(c: string, millis: nat)
    requires |c| == 19 && millis <= 999
    ensures var s := c + FormatTail(millis * 1000);
            && |s| == (if millis == 0 then 25 else 32) && s[|s| - 6..] == "+00:00"
            && (millis != 0 ==> s[19] == '.' && AllDigits(s[20..26]) && Num(s[20..26]) == millis * 1000)
  {
    var micros, tail := millis * 1000, FormatTail(millis * 1000);
    var s := c + tail;
    Powers();
    FixedIsDigits(micros, 6);
    NumOfFixed(micros, 6);
    if millis == 0 {
      assert s[19..] == tail;
    } else {
      assert s[20..26] == tail[1..7] == Fixed(micros, 6);
      assert s[26..] == tail[7..] == UTC;
    }
  }

  /** Where each field of the signed timestamp stands, for four-digit years. */
  lemma StampReads(i: Instant)
    requires ValidInstant(i) && 1000 <= i.year <= 9999
    ensures var s := Stamp(i);
            && |s| == (if i.millis == 0 then 25 else 32) && s[|s| - 6..] == "+00:00"
            && s[4] == '-' && s[7] == '-' && s[10] == 'T' && s[13] == ':' && s[16] == ':'
            && AllDigits(s[0..4]) && Num(s[0..4]) == i.year
            && AllDigits(s[5..7]) && Num(s[5..7]) == i.month && AllDigits(s[8..10]) && Num(s[8..10]) == i.day
            && AllDigits(s[11..13]) && Num(s[11..13]) == i.hour && AllDigits(s[14..16]) && Num(s[14..16]) == i.minute
            && AllDigits(s[17..19]) && Num(s[17..19]) == i.second
            && (i.millis != 0 ==> s[19] == '.' && AllDigits(s[20..26]) && Num(s[20..26]) == i.millis * 1000)
  {
    StampIsFormat(i);
    FixedCoreParses(MicrosOf(i));
    InFront(FixedCore(MicrosOf(i)), FormatTail(i.millis * 1000));
    TailReads(FixedCore(MicrosOf(i)), i.millis);
  }

  /** The calendar is the Gregorian one. */
  lemma LeapYears()
    ensures Leap(2000) && Leap(2024) && !Leap(1900) && !Leap(2023)
    ensures DaysIn(2000, 2) == 29 && DaysIn(1900, 2) == 28
  {
  }

  lemma PrefixGrows(p: string, s: string, part: string, more: string)
    requires p <= s
    ensures p <= s + part + more
  {
  }

  lemma CoreStartsWithYear(y: string, mo: string, d: string, h: string, mi: string, s: string)
    ensures y + "-" <= Core(y, mo, d, h, mi, s)
  {
    PrefixGrows(y + "-", y + "-", mo, "-");
    PrefixGrows(y + "-", y + "-" + mo + "-", d, "T");
    PrefixGrows(y + "-", y + "-" + mo + "-" + d + "T", h, ":");
    PrefixGrows(y + "-", y + "-" + mo + "-" + d + "T" + h + ":", mi, ":");
    PrefixGrows(y + "-", y + "-" + mo + "-" + d + "T" + h + ":" + mi + ":", s, "");
    assert Core(y, mo, d, h, mi, s) + "" == Core(y, mo, d, h, mi, s);
  }

  /** The stamp is its year, a hyphen and the rest. */
  lemma StampStartsWithYear(i: Instant) returns (rest: string)
    ensures Stamp(i) == Dec(i.year) + "-" + rest
  {
    CoreStartsWithYear(Dec(i.year), PadStart(Dec(i.month), 2), PadStart(Dec(i.day), 2),
                       PadStart(Dec(i.hour), 2), PadStart(Dec(i.minute), 2), PadStart(Dec(i.second), 2));
    PrefixGrows(Dec(i.year) + "-", StampCore(i), Fraction(i.millis), UTC);
    rest := Stamp(i)[|Dec(i.year)| + 1..];
  }

  /** The year is not padded, so exactly the four-digit years give a timestamp the verifier accepts. */
  lemma StampAcceptedIff(i: Instant)
    requires ValidInstant(i)
    ensures Parse(Stamp(i)).Some? <==> 1000 <= i.year <= 9999
  {
    if 1000 <= i.year <= 9999 {
      StampSurvives(i);
    } else {
      Powers();
      DecLength(i.year, 3);
      DecLength(i.year, 4);
      var rest := StampStartsWithYear(i);
      OnlyFourDigitYears(Dec(i.year), rest);
    }
  }

  lemma OnlyFourDigitYears(y: string, rest: string)
    requires AllDigits(y) && |y| != 4
    ensures Parse(y + "-" + rest).None?
  {
    var s := y + "-" + rest;
    if |s| >= 19 {
      var c := s[..19];
      if |y| < 4 {
        assert c[0..4][|y|] == '-';
      } else {
        assert c[4] == y[4];
      }
    }
  }

  lemma IsoTailParses(millis: nat)
    requires millis <= 999
    ensures ParseTail(IsoTail(millis)) == Some(millis * 1000) && !PythonTail(IsoTail(millis))
  {
    Powers();
    NumOfFixed(millis, 3);
    FixedIsDigits(millis, 3);
    var tail := IsoTail(millis);
    assert |tail| == 5 && tail[1..4] == Fixed(millis, 3) && tail[4..] == "Z";
  }

  /** `toISOString` would be accepted too, but never survive. */
  lemma IsoStringNeverSurvives(i: Instant)
    requires ValidInstant(i) && 1000 <= i.year <= 9999
    ensures Parse(IsoString(i)) == Some(MicrosOf(i))
    ensures Format(Parse(IsoString(i)).value) != IsoString(i)
  {
    var t := MicrosOf(i).(micros := 0);
    FixedCoreParses(t);
    IsoTailParses(i.millis);
    Halves(FixedCore(t), IsoTail(i.millis));
    RoundTripIff(IsoString(i));
  }

  // ---- the canonical string ----

  predicate NoNewline(s: string) {
    forall i :: 0 <= i < |s| ==> s[i] != '\n'
  }

  function Canonical(verb: string, path: string, timestamp: string, bodyHash: string): string {
    verb + "\n" + path + "\n" + timestamp + "\n" + bodyHash
  }

  lemma SplitAtFirst(a1: string, r1: string, a2: string, r2: string)
    requires NoNewline(a1) && NoNewline(a2) && a1 + "\n" + r1 == a2 + "\n" + r2
    ensures a1 == a2 && r1 == r2
  {
    var s := a1 + "\n" + r1;
    assert s[|a1|] == '\n' && s[|a2|] == '\n';
    assert |a1| == |a2|;
    assert s[..|a1|] == a1 && s[..|a2|] == a2;
    assert s[|a1| + 1..] == r1 && s[|a2| + 1..] == r2;
  }

  lemma SplitAtLast(r1: string, a1: string, r2: string, a2: string)
    requires NoNewline(a1) && NoNewline(a2) && r1 + "\n" + a1 == r2 + "\n" + a2
    ensures a1 == a2 && r1 == r2
  {
    var s := r1 + "\n" + a1;
    assert s == r2 + "\n" + a2;
    assert s[|r1|] == '\n' && s[|r2|] == '\n';
    assert forall k :: 0 <= k < |a1| ==> s[|r1| + 1 + k] == a1[k];
    assert forall k :: |r1| < k < |s| ==> s[k] != '\n';
    assert forall k :: |r2| < k < |s| ==> s[k] == a2[k - |r2| - 1];
    assert |r1| == |r2|;
    assert s[..|r1|] == r1 && s[..|r2|] == r2;
    assert s[|r1| + 1..] == a1 && s[|r2| + 1..] == a2;
  }

  lemma JoinedNoNewline(a: string, b: string)
    requires NoNewline(a) && NoNewline(b)
    ensures NoNewline(a + b)
  {
  }

  lemma CoreNoNewline(y: string, mo: string, d: string, h: string, mi: string, s: string)
    requires NoNewline(y) && NoNewline(mo) && NoNewline(d) && NoNewline(h) && NoNewline(mi) && NoNewline(s)
    ensures NoNewline(Core(y, mo, d, h, mi, s))
  {
  }

  lemma PaddedNoNewline(n: nat, w: nat)
    requires 0 < w && n < Pow10(w)
    ensures NoNewline(PadStart(Dec(n), w))
  {
    PadIsFixed(n, w);
    FixedIsDigits(n, w);
  }

  lemma StampHasNoNewline(i: Instant)
    requires ValidInstant(i)
    ensures NoNewline(Stamp(i))
  {
    Powers();
    DecLength(i.year, 1);
    PaddedNoNewline(i.month, 2); PaddedNoNewline(i.day, 2);
    PaddedNoNewline(i.hour, 2); PaddedNoNewline(i.minute, 2); PaddedNoNewline(i.second, 2);
    PaddedNoNewline(i.millis * 1000, 6);
    CoreNoNewline(Dec(i.year), PadStart(Dec(i.month), 2), PadStart(Dec(i.day), 2),
                  PadStart(Dec(i.hour), 2), PadStart(Dec(i.minute), 2), PadStart(Dec(i.second), 2));
    JoinedNoNewline(StampCore(i), Fraction(i.millis));
    JoinedNoNewline(StampCore(i) + Fraction(i.millis), UTC);
  }

  /** What is signed determines what was sent: method, path, timestamp and body hash. The path may be any
      string, newlines included; the method, the timestamps and the hashes have none. */
  lemma CanonicalDetermines(verb1: string, path1: string, at1: Instant, hash1: string,
                            verb2: string, path2: string, at2: Instant, hash2: string)
    requires NoNewline(verb1) && NoNewline(verb2) && NoNewline(hash1) && NoNewline(hash2)
    requires ValidInstant(at1) && ValidInstant(at2)
    requires Canonical(verb1, path1, Stamp(at1), hash1) == Canonical(verb2, path2, Stamp(at2), hash2)
    ensures verb1 == verb2 && path1 == path2 && Stamp(at1) == Stamp(at2) && hash1 == hash2
    ensures 1000 <= at1.year <= 9999 && 1000 <= at2.year <= 9999 ==> at1 == at2
  {
    StampHasNoNewline(at1);
    StampHasNoNewline(at2);
    SplitAtLast(verb1 + "\n" + path1 + "\n" + Stamp(at1), hash1, verb2 + "\n" + path2 + "\n" + Stamp(at2), hash2);
    SplitAtLast(verb1 + "\n" + path1, Stamp(at1), verb2 + "\n" + path2, Stamp(at2));
    SplitAtFirst(verb1, path1, verb2, path2);
    if 1000 <= at1.year <= 9999 && 1000 <= at2.year <= 9999 {
      StampSurvives(at1);
      StampSurvives(at2);
    }
  }

  /** `s.split('\n')` */
  function Lines(s: string): (lines: seq<string>)
    ensures lines != []
  {
    if s == "" then [""]
    else if s[0] == '\n' then [""] + Lines(s[1..])
    else
      var rest := Lines(s[1..]);
      [[s[0]] + rest[0]] + rest[1..]
  }

  lemma {:induction false} LinesConcat(a: string, b: string)
    ensures Lines(a + "\n" + b) == Lines(a) + Lines(b)
  {
    if a == "" {
      assert a + "\n" + b == "\n" + b;
      assert ("\n" + b)[1..] == b;
    } else {
      assert (a + "\n" + b)[1..] == a[1..] + "\n" + b;
      LinesConcat(a[1..], b);
    }
  }

  lemma {:induction false} OneLine(s: string)
    requires NoNewline(s)
    ensures Lines(s) == [s]
  {
    if s != "" {
      OneLine(s[1..]);
      assert [s[0]] + s[1..] == s;
    }
  }

  /** Line by line, what is signed is the method, the path, the timestamp and the body hash, in this order. */
  lemma CanonicalLines(verb: string, path: string, at: Instant, bodyHash: string)
    requires NoNewline(verb) && NoNewline(bodyHash) && ValidInstant(at)
    ensures Lines(Canonical(verb, path, Stamp(at), bodyHash)) == [verb] + Lines(path) + [Stamp(at), bodyHash]
    ensures NoNewline(path) ==> Lines(path) == [path]
  {
    StampHasNoNewline(at);
    LinesConcat(verb + "\n" + path + "\n" + Stamp(at), bodyHash);
    LinesConcat(verb + "\n" + path, Stamp(at));
    LinesConcat(verb, path);
    OneLine(verb);
    OneLine(Stamp(at));
    OneLine(bodyHash);
    if NoNewline(path) {
      OneLine(path);
    }
  }

  /** A newline in the method would let it swallow part of the path. */
  lemma NewlineInVerbCollides(verb: string, line: string, path: string, timestamp: string, bodyHash: string)
    ensures Canonical(verb + "\n" + line, path, timestamp, bodyHash)
         == Canonical(verb, line + "\n" + path, timestamp, bodyHash)
  {
    assert verb + "\n" + line + "\n" + path == verb + "\n" + (line + "\n" + path);
  }
}
