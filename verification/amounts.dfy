/** Amounts as text: strict parsing of what a human typed, printing, and the provider's format. Every
    supported currency has two decimal places, and decimal arithmetic carries 28 significant digits. */
module Amounts {
  import opened Common

  function Pow10(n: nat): (p: nat)
    ensures p > 0
  {
    if n == 0 then 1 else 10 * Pow10(n - 1)
  }

  /** The decimal context holds 28 significant digits; it refuses to quantize past them. */
  const LIMIT: nat := 10_000_000_000_000_000_000_000_000_000

  /** A decimal number: sign, coefficient, power of ten. */
  datatype Decimal = Decimal(negative: bool, coeff: nat, exp: int)

  // ---- digits -----------------------------------------------------------------

  predicate IsDigit(c: char) {
    '0' <= c <= '9'
  }

  predicate AllDigits(s: string) {
    forall i | 0 <= i < |s| :: IsDigit(s[i])
  }

  function DigitValue(c: char): nat
    requires IsDigit(c)
  {
    c as int - '0' as int
  }

  function DigitChar(d: nat): (c: char)
    requires d < 10
    ensures IsDigit(c) && DigitValue(c) == d
  {
    ('0' as int + d) as char
  }

  function Val(s: string): nat
    requires AllDigits(s)
  {
    if s == [] then 0 else 10 * Val(s[..|s| - 1]) + DigitValue(s[|s| - 1])
  }

  function ToDigits(n: nat): (s: string)
    ensures s != [] && AllDigits(s) && Val(s) == n
  {
    if n < 10 then [DigitChar(n)]
    else
      var front := ToDigits(n / 10);
      var s := front + [DigitChar(n % 10)];
      assert s[..|s| - 1] == front;
      s
  }

  function Zeros(n: nat): (s: string)
    ensures |s| == n && AllDigits(s)
  {
    if n == 0 then [] else ['0'] + Zeros(n - 1)
  }

  lemma {:induction false} ValConcat(s: string, t: string)
    requires AllDigits(s) && AllDigits(t)
    ensures AllDigits(s + t) && Val(s + t) == Val(s) * Pow10(|t|) + Val(t)
  {
    if t == [] {
      assert s + t == s;
    } else {
      var front, last := t[..|t| - 1], t[|t| - 1];
      ValConcat(s, front);
      assert s + t == (s + front) + [last];
      ValAppend(s + front, last);
      ShiftDigit(Val(s), Pow10(|front|), Val(front), DigitValue(last));
    }
  }

  lemma ValAppend(s: string, c: char)
    requires AllDigits(s) && IsDigit(c)
    ensures Val(s + [c]) == 10 * Val(s) + DigitValue(c)
  {
    assert (s + [c])[..|s|] == s;
  }

  lemma ShiftDigit(v: nat, p: nat, f: nat, d: nat)
    ensures 10 * (v * p + f) + d == v * (10 * p) + (10 * f + d)
  {
  }

  lemma {:induction false} ZerosAreNothing(n: nat)
    ensures Val(Zeros(n)) == 0
  {
    if n > 0 {
      ZerosAreNothing(n - 1);
      assert Val(['0']) == 10 * Val([]) + 0;
      ValConcat(['0'], Zeros(n - 1));
    }
  }

  // ---- rounding to minor units ------------------------------------------------

  /** Half-up, ties away from zero, on magnitudes: `n / d` to the nearest integer. */
  function RoundHalfUp(n: nat, d: nat): nat
    requires d > 0
  {
    (2 * n + d) / (2 * d)
  }

  /** The magnitude of a decimal in minor units, rounded half-up. */
  function MinorMagnitude(x: Decimal): nat {
    if x.exp >= -2 then x.coeff * Pow10(x.exp + 2) else RoundHalfUp(x.coeff, Pow10(-2 - x.exp))
  }

  /** Quantize to two places and count minor units; a result past the precision is refused. */
  function FromMajor(x: Decimal): Option<int> {
    var m: int := MinorMagnitude(x);
    if m >= LIMIT then None else Some(if x.negative then -m else m)
  }

  /** The nearest number of minor units: never off by more than half of one, ties away from zero,
      exact whenever two places are enough. */
  lemma FromMajorIsNearest(x: Decimal)
    ensures FromMajor(x).Some? ==>
      var m := FromMajor(x).value;
      var size := if m < 0 then -m else m;
      && (m != 0 ==> (m < 0) == x.negative)
      && (x.exp >= -2 ==> size == x.coeff * Pow10(x.exp + 2))
      && (x.exp < -2 ==> var d := Pow10(-2 - x.exp); 2 * x.coeff - d < 2 * size * d <= 2 * x.coeff + d)
    ensures FromMajor(x).None? <==> MinorMagnitude(x) >= LIMIT
  {
    if x.exp < -2 {
      NearestQuotient(x.coeff, Pow10(-2 - x.exp));
    }
  }

  lemma NearestQuotient(n: nat, d: nat)
    requires d > 0
    ensures 2 * n - d < 2 * RoundHalfUp(n, d) * d <= 2 * n + d
  {
    var q, r := (2 * n + d) / (2 * d), (2 * n + d) % (2 * d);
    assert 2 * n + d == q * (2 * d) + r;
    assert q * (2 * d) == 2 * q * d;
  }

  // ---- what a human typed -------------------------------------------------------

  /** Python's whitespace. */
  predicate IsSpace(c: char) {
    || '\U{0009}' <= c <= '\U{000D}' || '\U{001C}' <= c <= '\U{0020}' || c == '\U{0085}' || c == '\U{00A0}'
    || c == '\U{1680}' || '\U{2000}' <= c <= '\U{200A}' || c == '\U{2028}' || c == '\U{2029}' || c == '\U{202F}'
    || c == '\U{205F}' || c == '\U{3000}'
  }

  function Strip(s: string): (r: string)
    ensures r == [] || (!IsSpace(r[0]) && !IsSpace(r[|r| - 1]))
    ensures s != [] && !IsSpace(s[0]) && !IsSpace(s[|s| - 1]) ==> r == s
    decreases |s|
  {
    if s == [] then []
    else if IsSpace(s[0]) then Strip(s[1..])
    else if IsSpace(s[|s| - 1]) then Strip(s[..|s| - 1])
    else s
  }

  /** How many leading characters are digits. */
  function DigitRun(s: string): (n: nat)
    ensures n <= |s| && AllDigits(s[..n]) && (n < |s| ==> !IsDigit(s[n]))
  {
    if s == [] || !IsDigit(s[0]) then 0
    else
      var n := DigitRun(s[1..]);
      assert s[..n + 1] == [s[0]] + s[1..][..n];
      1 + n
  }

  /** The strict pattern: digits, then at most one separator with one or two digits after it. */
  predicate PlainAmount(s: string) {
    var n := DigitRun(s);
    n > 0 && (n == |s| || (s[n] in {'.', ','} && 1 <= |s| - n - 1 <= 2 && AllDigits(s[n + 1..])))
  }

  /** The whole part and the fraction of a plain amount. */
  function Whole(s: string): string {
    s[..DigitRun(s)]
  }

  function Fraction(s: string): string {
    if DigitRun(s) == |s| then [] else s[DigitRun(s) + 1..]
  }

  /** Read a plain decimal text: its digits are the coefficient, its fraction's length the exponent. */
  function ReadPlain(s: string): Decimal
    requires PlainAmount(s)
  {
    var digits := Whole(s) + Fraction(s);
    Decimal(false, Val(digits), -|Fraction(s)|)
  }

  function FromUserInput(text: string): Option<int> {
    var cleaned := Strip(text);
    if PlainAmount(cleaned) then FromMajor(ReadPlain(cleaned)) else None
  }

  /** Every accepted text is read exactly, never rounded, and a text is accepted exactly when it is
      plain and within the precision. */
  lemma UserInputIsExact(text: string)
    ensures var s := Strip(text);
      if !PlainAmount(s) then FromUserInput(text) == None
      else
        var minor := Val(Whole(s)) * 100 + Val(Fraction(s)) * Pow10(2 - |Fraction(s)|);
        FromUserInput(text) == if minor < LIMIT then Some(minor) else None
  {
    if PlainAmount(Strip(text)) {
      PlainIsExact(Strip(text));
    }
  }

  lemma PlainIsExact(s: string)
    requires PlainAmount(s)
    ensures MinorMagnitude(ReadPlain(s)) == Val(Whole(s)) * 100 + Val(Fraction(s)) * Pow10(2 - |Fraction(s)|)
  {
    ValConcat(Whole(s), Fraction(s));
    ShiftToMinor(Val(Whole(s)), Val(Fraction(s)), |Fraction(s)|);
  }

  lemma ShiftToMinor(whole: nat, fraction: nat, places: nat)
    requires places <= 2
    ensures (whole * Pow10(places) + fraction) * Pow10(2 - places) == whole * 100 + fraction * Pow10(2 - places)
  {
    assert Pow10(0) == 1 && Pow10(1) == 10 && Pow10(2) == 100;
    assert places == 0 || places == 1 || places == 2;
  }

  // ---- the texts that write an amount, told without parsing them -------------------------------------

  predicate AllSpaces(s: string) {
    forall i | 0 <= i < |s| :: IsSpace(s[i])
  }

  /** Digits, and then nothing, or a point or a comma and one or two digits more. */
  ghost predicate WritesPlainly(w: string, tail: string, minor: nat) {
    && w != [] && AllDigits(w)
    && if tail == [] then minor == 100 * Val(w)
       else
         && 2 <= |tail| <= 3 && tail[0] in {'.', ','} && AllDigits(tail[1..])
         && minor == 100 * Val(w) + (if |tail| == 2 then 10 else 1) * Val(tail[1..])
  }

  /** The same between any spaces. */
  ghost predicate Writes(text: string, minor: nat) {
    exists before, w, tail, after ::
      text == before + (w + tail) + after && AllSpaces(before) && AllSpaces(after) && WritesPlainly(w, tail, minor)
  }

  lemma {:induction false} StripSurrounded(before: string, core: string, after: string)
    requires AllSpaces(before) && AllSpaces(after)
    requires core != [] && !IsSpace(core[0]) && !IsSpace(core[|core| - 1])
    ensures Strip(before + core + after) == core
    decreases |before| + |after|
  {
    var s := before + core + after;
    if before != [] {
      assert s[0] == before[0] && s[1..] == before[1..] + core + after;
      StripSurrounded(before[1..], core, after);
    } else if after != [] {
      var n := |after| - 1;
      assert s[0] == core[0] && s[|s| - 1] == after[n] && s[..|s| - 1] == before + core + after[..n];
      StripSurrounded(before, core, after[..n]);
    } else {
      assert s == core;
    }
  }

  lemma {:induction false} StripLeaves(s: string) returns (before: string, after: string)
    ensures s == before + Strip(s) + after && AllSpaces(before) && AllSpaces(after)
    decreases |s|
  {
    before, after := [], [];
    if s != [] && IsSpace(s[0]) {
      var spaces, rest := StripLeaves(s[1..]);
      before, after := [s[0]] + spaces, rest;
      OneMoreBefore(s, spaces, Strip(s), rest);
    } else if s != [] && IsSpace(s[|s| - 1]) {
      var rest, spaces := StripLeaves(s[..|s| - 1]);
      before, after := rest, spaces + [s[|s| - 1]];
      OneMoreAfter(s, rest, Strip(s), spaces);
    }
  }

  lemma OneMoreBefore(s: string, before: string, core: string, after: string)
    requires s != [] && s[1..] == before + core + after
    ensures s == [s[0]] + before + core + after
  {
    assert s == [s[0]] + s[1..];
    assert [s[0]] + (before + core + after) == [s[0]] + before + core + after;
  }

  lemma OneMoreAfter(s: string, before: string, core: string, after: string)
    requires s != [] && s[..|s| - 1] == before + core + after
    ensures s == before + core + (after + [s[|s| - 1]])
  {
    assert s == s[..|s| - 1] + [s[|s| - 1]];
    assert (before + core + after) + [s[|s| - 1]] == before + core + (after + [s[|s| - 1]]);
  }

  lemma PlainlyIsPlain(w: string, tail: string, minor: nat)
    requires WritesPlainly(w, tail, minor)
    ensures var s := w + tail;
      && PlainAmount(s) && Whole(s) == w && Fraction(s) == (if tail == [] then [] else tail[1..])
      && !IsSpace(s[0]) && !IsSpace(s[|s| - 1])
  {
    DigitRunStops(w, tail);
    var s := w + tail;
    assert s[..|w|] == w && (tail != [] ==> s[|w| + 1..] == tail[1..] && s[|s| - 1] == tail[1..][|tail| - 2]);
  }

  /** The value of a plain amount, in minor units. */
  function MinorOf(s: string): nat
    requires PlainAmount(s)
  {
    Val(Whole(s)) * 100 + Val(Fraction(s)) * Pow10(2 - |Fraction(s)|)
  }

  lemma PlainWritesPlainly(s: string)
    requires PlainAmount(s)
    ensures var w, tail := s[..DigitRun(s)], s[DigitRun(s)..];
      s == w + tail && WritesPlainly(w, tail, MinorOf(s))
  {
    assert Pow10(0) == 1 && Pow10(1) == 10 && Pow10(2) == 100;
    if DigitRun(s) < |s| {
      assert s[DigitRun(s)..][1..] == s[DigitRun(s) + 1..];
    }
  }

  lemma PlainValue(w: string, tail: string, minor: nat)
    requires WritesPlainly(w, tail, minor)
    ensures PlainAmount(w + tail) && MinorOf(w + tail) == minor
  {
    PlainlyIsPlain(w, tail, minor);
    assert Pow10(0) == 1 && Pow10(1) == 10 && Pow10(2) == 100;
  }

  lemma StrippedIsRead(text: string, s: string, minor: nat)
    requires Strip(text) == s && PlainAmount(s) && MinorOf(s) == minor
    ensures FromUserInput(text) == if minor < LIMIT then Some(minor) else None
  {
    UserInputIsExact(text);
  }

  lemma WrittenIsRead(before: string, w: string, tail: string, after: string, minor: nat)
    requires AllSpaces(before) && AllSpaces(after) && WritesPlainly(w, tail, minor)
    ensures FromUserInput(before + (w + tail) + after) == if minor < LIMIT then Some(minor) else None
  {
    PlainlyIsPlain(w, tail, minor);
    PlainValue(w, tail, minor);
    SurroundedIsRead(before, w + tail, after, minor);
  }

  lemma SurroundedIsRead(before: string, s: string, after: string, minor: nat)
    requires AllSpaces(before) && AllSpaces(after) && PlainAmount(s) && MinorOf(s) == minor
    requires s != [] && !IsSpace(s[0]) && !IsSpace(s[|s| - 1])
    ensures FromUserInput(before + s + after) == if minor < LIMIT then Some(minor) else None
  {
    StripSurrounded(before, s, after);
    StrippedIsRead(before + s + after, s, minor);
  }

  lemma ReadIsWritten(text: string, s: string)
    requires Strip(text) == s && PlainAmount(s)
    ensures Writes(text, MinorOf(s))
  {
    var before, after := StripLeaves(text);
    PlainWritesPlainly(s);
    WritesWith(text, before, s[..DigitRun(s)], s[DigitRun(s)..], after, MinorOf(s));
  }

  lemma WritesWith(text: string, before: string, w: string, tail: string, after: string, minor: nat)
    requires text == before + (w + tail) + after && AllSpaces(before) && AllSpaces(after) && WritesPlainly(w, tail, minor)
    ensures Writes(text, minor)
  {
  }

  lemma AcceptedIsWritten(text: string, minor: nat)
    requires FromUserInput(text) == Some(minor)
    ensures Writes(text, minor) && minor < LIMIT
  {
    UserInputIsExact(text);
    ReadIsWritten(text, Strip(text));
  }

  /** What a typed text is read as: the amount it writes, if it writes one within the precision, and nothing
      otherwise. */
  lemma ReadsWhatIsWritten(text: string, minor: nat)
    ensures FromUserInput(text) == Some(minor) <==> Writes(text, minor) && minor < LIMIT
  {
    if FromUserInput(text) == Some(minor) {
      AcceptedIsWritten(text, minor);
    }
    if Writes(text, minor) {
      var before, w, tail, after :| text == before + (w + tail) + after
        && AllSpaces(before) && AllSpaces(after) && WritesPlainly(w, tail, minor);
      WrittenIsRead(before, w, tail, after, minor);
    }
  }

  // ---- printing -----------------------------------------------------------------

  /** A coefficient with its last `places` digits behind a point, padded so that one digit leads. */
  function Unsigned(coeff: nat, places: nat): string {
    var ds := ToDigits(coeff);
    if places == 0 then ds
    else if |ds| <= places then "0" + "." + (Zeros(places - |ds|) + ds)
    else ds[..|ds| - places] + "." + ds[|ds| - places..]
  }

  function Render(negative: bool, coeff: nat, places: nat): string {
    if negative then "-" + Unsigned(coeff, places) else Unsigned(coeff, places)
  }

  function ToMajorStr(minor: int): string
    requires -(LIMIT as int) < minor < LIMIT
  {
    Render(minor < 0, if minor < 0 then -minor else minor, 2)
  }

  /** The two digit strings that a rendered number is made of. */
  lemma RenderParts(coeff: nat, places: nat) returns (w: string, f: string)
    requires places > 0
    ensures AllDigits(w) && AllDigits(f) && w != [] && |f| == places
    ensures Render(false, coeff, places) == w + "." + f
    ensures Val(w + f) == coeff
  {
    var ds := ToDigits(coeff);
    if |ds| <= places {
      w, f := "0", Zeros(places - |ds|) + ds;
      assert w + f == Zeros(places - |ds| + 1) + ds;
      ValConcat(Zeros(places - |ds| + 1), ds);
      ZerosAreNothing(places - |ds| + 1);
    } else {
      w, f := ds[..|ds| - places], ds[|ds| - places..];
      assert w + f == ds;
    }
  }

  lemma {:induction false} DigitRunStops(w: string, rest: string)
    requires AllDigits(w) && (rest == [] || !IsDigit(rest[0]))
    ensures DigitRun(w + rest) == |w|
  {
    if w == [] {
      assert w + rest == rest;
    } else {
      SplitFirst(w, rest);
      DigitRunStops(w[1..], rest);
    }
  }

  /** Printing then parsing gives the amount back, for every non-negative amount within precision. */
  lemma AmountRoundTrip(minor: nat)
    requires minor < LIMIT
    ensures FromUserInput(ToMajorStr(minor)) == Some(minor)
  {
    PrintedIsPlain(minor);
    assert Pow10(0) == 1;
  }

  /** A whole part, a point and two digits: plain, and split where it was joined. */
  lemma PointSplits(w: string, f: string)
    requires AllDigits(w) && AllDigits(f) && w != [] && |f| == 2
    ensures var s := w + "." + f;
      DigitRun(s) == |w| && Whole(s) == w && Fraction(s) == f && s[|w| + 1..] == f
  {
    DigitRunStops(w, "." + f);
    assert w + ("." + f) == w + "." + f;
    assert (w + "." + f)[|w| + 1..] == f;
  }

  lemma DigitsAreNotSpaces(s: string)
    requires s != [] && IsDigit(s[0]) && IsDigit(s[|s| - 1])
    ensures Strip(s) == s
  {
  }

  lemma PrintedIsPlain(minor: nat)
    requires minor < LIMIT
    ensures var s := ToMajorStr(minor);
      Strip(s) == s && PlainAmount(s) && ReadPlain(s) == Decimal(false, minor, -2)
  {
    var w, f := RenderParts(minor, 2);
    PointSplits(w, f);
    DigitsAreNotSpaces(w + "." + f);
  }

  // ---- the provider's format ------------------------------------------------------

  /** Render with exactly `decimals` places, or refuse: precision is never silently dropped. */
  function FormatAmount(minor: int, decimals: nat): Option<string>
    requires -(LIMIT as int) < minor < LIMIT
  {
    var size := if minor < 0 then -minor else minor;
    if decimals >= 2 then
      var coeff := size * Pow10(decimals - 2);
      if coeff >= LIMIT then None else Some(Printed(minor < 0, coeff, decimals))
    else
      var unit := Pow10(2 - decimals);
      var coeff := RoundHalfEven(size, unit);
      if coeff * unit != size then None else Some(Printed(minor < 0, coeff, decimals))
  }

  /** The default rounding of the decimal context. */
  function RoundHalfEven(n: nat, d: nat): nat
    requires d > 0
  {
    var q, r := n / d, n % d;
    if 2 * r < d || (2 * r == d && q % 2 == 0) then q else q + 1
  }

  /** Text of a decimal with `places` places: plain, save a zero of more than six places. */
  function Printed(negative: bool, coeff: nat, places: nat): string {
    if coeff == 0 && places > 6 then "0E-" + ToDigits(places) else Render(negative, coeff, places)
  }

  /** Formatting succeeds exactly when no precision is lost and the result fits. */
  lemma FormatSucceedsIff(minor: int, decimals: nat)
    requires -(LIMIT as int) < minor < LIMIT
    ensures var size := if minor < 0 then -minor else minor;
      FormatAmount(minor, decimals).Some? <==>
        if decimals >= 2 then size * Pow10(decimals - 2) < LIMIT else size % Pow10(2 - decimals) == 0
  {
    var size := if minor < 0 then -minor else minor;
    if decimals < 2 {
      RoundedIsWhole(size, Pow10(2 - decimals));
    }
  }

  lemma RoundedIsWhole(n: nat, d: nat)
    requires d > 0
    ensures RoundHalfEven(n, d) * d == n <==> n % d == 0
  {
    var q, r := n / d, n % d;
    assert n == q * d + r && (q + 1) * d == q * d + d;
  }

  /** A number as the provider sees it: sign, digits, point, digits. */
  function ReadUnsigned(body: string, negative: bool): Option<Decimal> {
    var n := DigitRun(body);
    if n == 0 then None
    else if n == |body| then Some(Decimal(negative, Val(body), 0))
    else if body[n] == '.' && AllDigits(body[n + 1..]) then
      Some(Decimal(negative, Val(body[..n] + body[n + 1..]), n + 1 - |body|))
    else None
  }

  function ReadSigned(s: string): Option<Decimal> {
    if s != [] && s[0] == '-' then ReadUnsigned(s[1..], true) else ReadUnsigned(s, false)
  }

  lemma ReadRenderedBody(negative: bool, coeff: nat, places: nat)
    ensures var body := Render(false, coeff, places);
      body != [] && IsDigit(body[0]) && ReadUnsigned(body, negative) == Some(Decimal(negative, coeff, 0 - places))
  {
    var body := Render(false, coeff, places);
    if places == 0 {
      assert body == ToDigits(coeff);
      DigitRunStops(body, []);
      assert body + [] == body;
    } else {
      var w, f := RenderParts(coeff, places);
      var tail := "." + f;
      DigitRunStops(w, tail);
      assert body == w + tail && body[..|w|] == w && body[|w| + 1..] == f;
    }
  }

  lemma ReadRendered(negative: bool, coeff: nat, places: nat)
    ensures ReadSigned(Render(negative, coeff, places)) == Some(Decimal(negative, coeff, 0 - places))
  {
    ReadRenderedBody(negative, coeff, places);
    var body := Render(false, coeff, places);
    assert ("-" + body)[1..] == body;
  }

  /** What is sent reads back as the same amount (a zero of more than six places is sent as `0E-n`). */
  lemma FormatRoundTrip(minor: int, decimals: nat)
    requires -(LIMIT as int) < minor < LIMIT
    requires FormatAmount(minor, decimals).Some? && (minor != 0 || decimals <= 6)
    ensures ReadSigned(FormatAmount(minor, decimals).value).Some?
    ensures FromMajor(ReadSigned(FormatAmount(minor, decimals).value).value) == Some(minor)
  {
    var coeff := FormattedCoeff(minor, decimals);
    ReadRendered(minor < 0, coeff, decimals);
    if decimals >= 2 {
      FinerReadsBack(minor, decimals);
    } else {
      CoarserReadsBack(minor, decimals, coeff);
    }
  }

  /** The coefficient that is printed. */
  lemma FormattedCoeff(minor: int, decimals: nat) returns (coeff: nat)
    requires -(LIMIT as int) < minor < LIMIT
    requires FormatAmount(minor, decimals).Some? && (minor != 0 || decimals <= 6)
    ensures FormatAmount(minor, decimals) == Some(Render(minor < 0, coeff, decimals))
    ensures var size := if minor < 0 then -minor else minor;
      if decimals >= 2 then coeff == size * Pow10(decimals - 2) else coeff * Pow10(2 - decimals) == size
  {
    var size := if minor < 0 then -minor else minor;
    if decimals >= 2 {
      coeff := size * Pow10(decimals - 2);
      if size != 0 {
        ProductIsPositive(size, Pow10(decimals - 2));
      }
    } else {
      coeff := RoundHalfEven(size, Pow10(2 - decimals));
    }
  }

  lemma ProductIsPositive(a: nat, b: nat)
    requires a > 0 && b > 0
    ensures a * b > 0
  {
  }

  lemma CoarserReadsBack(minor: int, decimals: nat, coeff: nat)
    requires -(LIMIT as int) < minor < LIMIT && decimals < 2
    requires coeff * Pow10(2 - decimals) == if minor < 0 then -minor else minor
    ensures FromMajor(Decimal(minor < 0, coeff, 0 - decimals)) == Some(minor)
  {
    assert MinorMagnitude(Decimal(minor < 0, coeff, 0 - decimals)) == coeff * Pow10(2 - decimals);
  }

  lemma FinerReadsBack(minor: int, decimals: nat)
    requires -(LIMIT as int) < minor < LIMIT && decimals >= 2
    ensures var size := if minor < 0 then -minor else minor;
      FromMajor(Decimal(minor < 0, size * Pow10(decimals - 2), 0 - decimals)) == Some(minor)
  {
    var size := if minor < 0 then -minor else minor;
    if decimals > 2 {
      ExactRounding(size, Pow10(decimals - 2));
    } else {
      assert Pow10(0) == 1;
    }
  }

  lemma ExactRounding(n: nat, d: nat)
    requires d > 0
    ensures RoundHalfUp(n * d, d) == n
  {
    NearestQuotient(n * d, d);
    var k := RoundHalfUp(n * d, d) - n;
    assert k * d == RoundHalfUp(n * d, d) * d - n * d;
    if k != 0 {
      MultiplesAreApart(k, d);
    }
  }

  lemma MultiplesAreApart(k: int, d: nat)
    requires k != 0
    ensures k * d >= d || -(k * d) >= d
  {
    if k > 0 {
      assert (k - 1) * d >= 0;
    } else {
      assert (-k - 1) * d >= 0;
    }
  }

  /** Places each provider accepts for each currency. */
  function ProviderDecimals(provider: string, currency: string): nat {
    if provider == "VODACOM_MPESA_COD" && currency == "CDF" then 0 else 2
  }

  /** Every amount can be sent to every provider, save centimes to the one that takes whole francs. */
  lemma ProviderTakesIff(provider: string, currency: string, minor: int)
    requires -(LIMIT as int) < minor < LIMIT
    ensures var size := if minor < 0 then -minor else minor;
      FormatAmount(minor, ProviderDecimals(provider, currency)).Some? <==>
        !(provider == "VODACOM_MPESA_COD" && currency == "CDF") || size % 100 == 0
  {
    FormatSucceedsIff(minor, ProviderDecimals(provider, currency));
    assert Pow10(0) == 1 && Pow10(1) == 10 && Pow10(2) == 100;
  }
}
