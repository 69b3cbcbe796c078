// Interval texts: a scan for number-and-unit segments, and the normal form that parses back.
module IntervalParser {
  import opened Common
  import opened Decimal
  import opened Text

  const MIN_MS := 30_000
  const MAX_MS := 24 * 60 * 60 * 1000

  datatype IntervalError = Unparseable | NeedsUnit | TooLong | TooShort

  /** A sum in milliseconds; a unit that names a built-in property makes it no number at all. */
  datatype Millis = Ms(value: real) | NotANumber

  datatype Parsed = Parsed(ms: Millis, human: string)

  /** One `<number><unit>` match: digits, digits after a point, letters, and how much text it covers. */
  datatype Segment = Segment(whole: string, fraction: string, unit: string, length: nat)

  // ---------------------------------------------------------------- scanning

  predicate IsLetter(c: char) {
    'a' <= c <= 'z' || 'A' <= c <= 'Z'
  }

  function DigitsLength(s: string): (n: nat)
    ensures n <= |s| && AllDigits(s[..n])
    ensures n < |s| ==> !IsDigit(s[n])
  {
    if s == [] || !IsDigit(s[0]) then 0
    else
      var n := DigitsLength(s[1..]);
      assert s[..n + 1] == [s[0]] + s[1..][..n];
      1 + n
  }

  function SpacesLength(s: string): (n: nat)
    ensures n <= |s|
  {
    if s == [] || !IsSpace(s[0]) then 0 else 1 + SpacesLength(s[1..])
  }

  function LettersLength(s: string): (n: nat)
    ensures n <= |s|
  {
    if s == [] || !IsLetter(s[0]) then 0 else 1 + LettersLength(s[1..])
  }

  /** Digits of a fraction right after the point, if both are there. */
  function FractionLength(s: string): (n: nat)
    ensures n <= |s|
  {
    if s == [] || s[0] != '.' || DigitsLength(s[1..]) == 0 then 0 else 1 + DigitsLength(s[1..])
  }

  /** The segment at the head of the text. Giving back characters never helps, so the longest munch decides. */
  function MatchHead(s: string): (m: Option<Segment>)
    ensures m.Some? ==> 0 < m.value.length <= |s| && m.value.whole != [] && AllDigits(m.value.whole) && AllDigits(m.value.fraction)
  {
    var d := DigitsLength(s);
    var f := FractionLength(s[d..]);
    var p := SpacesLength(s[d + f..]);
    var u := LettersLength(s[d + f + p..]);
    if d == 0 || u == 0 then None
    else
      var fraction := if f == 0 then [] else s[d + 1..d + f];
      assert f > 0 ==> fraction == s[d..][1..][..f - 1];
      Some(Segment(s[..d], fraction, s[d + f + p..d + f + p + u], d + f + p + u))
  }

  /** All matches, left to right. */
  function Scan(s: string): seq<Segment>
    decreases |s|
  {
    if s == [] then []
    else match MatchHead(s)
      case Some(m) => [m] + Scan(s[m.length..])
      case None => Scan(s[1..])
  }

  /** The characters no match covers. */
  function Leftover(s: string): string
    decreases |s|
  {
    if s == [] then []
    else match MatchHead(s)
      case Some(m) => Leftover(s[m.length..])
      case None => [s[0]] + Leftover(s[1..])
  }

  predicate IsBareNumber(s: string) {
    var d := DigitsLength(s);
    d > 0 && d + FractionLength(s[d..]) == |s|
  }

  // ---------------------------------------------------------------- values

  const SECONDS: set<string> := {"s", "sec", "secs", "second", "seconds"}
  const MINUTES: set<string> := {"m", "min", "mins", "minute", "minutes"}
  const HOURS: set<string> := {"h", "hr", "hrs", "hour", "hours"}
  const DAYS: set<string> := {"d", "day", "days"}

  const BUILT_IN_NAME := "constructor"

  /** The unit table. The one lower-case name that every object carries is found in it as well. */
  function FactorOf(unit: string): Option<Millis> {
    if unit in SECONDS then Some(Ms(1_000.0))
    else if unit in MINUTES then Some(Ms(60_000.0))
    else if unit in HOURS then Some(Ms(3_600_000.0))
    else if unit in DAYS then Some(Ms(86_400_000.0))
    else if unit == BUILT_IN_NAME then Some(NotANumber)
    else None
  }

  function PowerOfTen(n: nat): (r: real)
    ensures r > 0.0
  {
    if n == 0 then 1.0 else 10.0 * PowerOfTen(n - 1)
  }

  function NumberOf(m: Segment): real
    requires AllDigits(m.whole) && AllDigits(m.fraction)
  {
    Value(m.whole) as real + Value(m.fraction) as real / PowerOfTen(|m.fraction|)
  }

  function Plus(a: Millis, b: Millis): Millis {
    if a.Ms? && b.Ms? then Ms(a.value + b.value) else NotANumber
  }

  function Times(n: real, factor: Millis): Millis {
    if factor.Ms? then Ms(n * factor.value) else NotANumber
  }

  ghost predicate WellScanned(ms: seq<Segment>) {
    forall i :: 0 <= i < |ms| ==> AllDigits(ms[i].whole) && AllDigits(ms[i].fraction)
  }

  lemma {:induction false} ScanIsWell(s: string)
    ensures WellScanned(Scan(s))
    decreases |s|
  {
    if s != [] {
      if MatchHead(s).Some? {
        ScanIsWell(s[MatchHead(s).value.length..]);
      } else {
        ScanIsWell(s[1..]);
      }
    }
  }

  /** The sum of the segments; None when a unit is unknown. */
  function Total(ms: seq<Segment>): Option<Millis>
    requires WellScanned(ms)
  {
    if ms == [] then Some(Ms(0.0))
    else
      var before := Total(ms[..|ms| - 1]);
      var m := ms[|ms| - 1];
      if before.None? || FactorOf(m.unit).None? then None
      else Some(Plus(before.value, Times(NumberOf(m), FactorOf(m.unit).value)))
  }

  // ---------------------------------------------------------------- the normal form

  function Part(n: nat, unit: char): string {
    if n > 0 then Print(n) + [unit] else []
  }

  function FormatSeconds(total: nat): string {
    var text := Part(total / 3600, 'h') + Part(total % 3600 / 60, 'm') + Part(total % 60, 's');
    if text != [] then text else "0s"
  }

  /** Rounding to the nearest second, halves up. */
  function FormatHuman(ms: Millis): string {
    match ms
    case Ms(x) => FormatSeconds(Max((x / 1000.0 + 0.5).Floor, 0))
    case NotANumber => "0s"
  }

  // ---------------------------------------------------------------- parsing

  const EVERY := "every "

  function Cleaned(input: string): string {
    var s := Lower(Trim(input));
    if EVERY <= s then Trim(s[|EVERY|..]) else s
  }

  function Bounded(ms: Millis): Result<Parsed, IntervalError> {
    if ms.Ms? && ms.value > MAX_MS as real then Err(TooLong)
    else if ms.Ms? && ms.value < MIN_MS as real then Err(TooShort)
    else Ok(Parsed(ms, FormatHuman(ms)))
  }

  function Parse(input: string): Result<Parsed, IntervalError> {
    var s := Cleaned(input);
    ScanIsWell(s);
    if s == [] then Err(Unparseable)
    else if IsBareNumber(s) then Err(NeedsUnit)
    else if Scan(s) == [] || Leftover(Compact(s)) != [] then Err(Unparseable)
    else match Total(Scan(s))
      case None => Err(Unparseable)
      case Some(ms) => Bounded(ms)
  }

  /** The accumulating loop over the matches. */
  method ParseInterval(input: string) returns (r: Result<Parsed, IntervalError>)
    ensures r == Parse(input)
  {
    hide Scan, Leftover, Compact, FactorOf, NumberOf, Cleaned, IsBareNumber, FormatHuman;
    var s := Cleaned(input);
    ScanIsWell(s);
    if |s| == 0 {
      return Err(Unparseable);
    }
    if IsBareNumber(s) {
      return Err(NeedsUnit);
    }
    var matches := Scan(s);
    if |matches| == 0 || |Leftover(Compact(s))| > 0 {
      return Err(Unparseable);
    }
    var ms := Ms(0.0);
    for i := 0 to |matches|
      invariant Total(matches[..i]) == Some(ms)
    {
      assert matches[..i + 1][..i] == matches[..i];
      var factor := FactorOf(matches[i].unit);
      if factor.None? {
        UnknownUnitSpoils(matches, i);
        return Err(Unparseable);
      }
      ms := Plus(ms, Times(NumberOf(matches[i]), factor.value));
    }
    assert matches[..|matches|] == matches;
    if ms.Ms? && ms.value > MAX_MS as real {
      return Err(TooLong);
    }
    if ms.Ms? && ms.value < MIN_MS as real {
      return Err(TooShort);
    }
    return Ok(Parsed(ms, FormatHuman(ms)));
  }

  lemma {:induction false} UnknownUnitSpoils(ms: seq<Segment>, i: nat)
    requires WellScanned(ms) && i < |ms| && FactorOf(ms[i].unit).None?
    ensures Total(ms).None?
    decreases |ms|
  {
    if i < |ms| - 1 {
      UnknownUnitSpoils(ms[..|ms| - 1], i);
    }
  }

  /** What is accepted lies between thirty seconds and a day, unless it is no number. */
  lemma AcceptedIsBounded(input: string)
    requires Parse(input).Ok?
    ensures Parse(input).value.ms.NotANumber? || MIN_MS as real <= Parse(input).value.ms.value <= MAX_MS as real
  {
  }

  ghost predicate HasBuiltInUnit(ms: seq<Segment>) {
    exists i :: 0 <= i < |ms| && ms[i].unit == BUILT_IN_NAME
  }

  lemma {:induction false} TotalIsNumberIff(ms: seq<Segment>)
    requires WellScanned(ms) && Total(ms).Some?
    ensures Total(ms).value.NotANumber? <==> HasBuiltInUnit(ms)
  {
    if ms != [] {
      var n := |ms| - 1;
      TotalIsNumberIff(ms[..n]);
      BuiltInOfSnoc(ms);
    }
  }

  lemma BuiltInOfSnoc(ms: seq<Segment>)
    requires ms != []
    ensures HasBuiltInUnit(ms) <==> HasBuiltInUnit(ms[..|ms| - 1]) || ms[|ms| - 1].unit == BUILT_IN_NAME
  {
    var n := |ms| - 1;
    if HasBuiltInUnit(ms[..n]) {
      var i :| 0 <= i < n && ms[..n][i].unit == BUILT_IN_NAME;
      assert ms[i].unit == BUILT_IN_NAME;
    }
    if HasBuiltInUnit(ms) {
      var i :| 0 <= i < |ms| && ms[i].unit == BUILT_IN_NAME;
      assert i < n ==> ms[..n][i].unit == BUILT_IN_NAME;
    }
  }

  /** The bounds fail for an accepted text exactly when one of its units is that built-in name. */
  lemma BoundsFailIff(input: string)
    requires Parse(input).Ok?
    ensures Parse(input).value.ms.NotANumber? <==>
            HasBuiltInUnit(Scan(Cleaned(input)))
  {
    hide MatchHead, Total, Leftover, Cleaned, IsBareNumber, FactorOf, FormatHuman;
    var ms := Scan(Cleaned(input));
    ScanIsWell(Cleaned(input));
    assert Total(ms).Some? && Parse(input) == Bounded(Total(ms).value);
    assert Parse(input).value.ms == Total(ms).value;
    TotalIsNumberIff(ms);
    assert Total(ms).value.NotANumber? <==> HasBuiltInUnit(ms);
  }

  // ---------------------------------------------------------------- round trip

  lemma {:induction false} DigitsThenNot(d: string, rest: string)
    requires AllDigits(d) && (rest == [] || !IsDigit(rest[0]))
    ensures DigitsLength(d + rest) == |d|
  {
    if d == [] {
      assert d + rest == rest;
    } else {
      assert (d + rest)[1..] == d[1..] + rest;
      DigitsThenNot(d[1..], rest);
    }
  }

  lemma UnitHead(unit: char, rest: string)
    requires IsLetter(unit) && (rest == [] || !IsLetter(rest[0]))
    ensures var s := [unit] + rest;
            FractionLength(s) == 0 && SpacesLength(s) == 0 && LettersLength(s) == 1 && !IsDigit(s[0])
  {
    assert ([unit] + rest)[1..] == rest;
  }

  /** Digits and a one-letter unit, before another number or the end. */
  lemma DigitsAndUnitMatch(d: string, unit: char, rest: string)
    requires d != [] && AllDigits(d) && IsLetter(unit) && (rest == [] || !IsLetter(rest[0]))
    ensures MatchHead(d + ([unit] + rest)) == Some(Segment(d, [], [unit], |d| + 1))
  {
    hide DigitsLength, FractionLength, SpacesLength, LettersLength, IsLetter, IsDigit, AllDigits;
    var s := d + ([unit] + rest);
    UnitHead(unit, rest);
    DigitsThenNot(d, [unit] + rest);
    assert s[..|d|] == d && s[|d|..] == [unit] + rest;
    assert s[|d| + 0..] == [unit] + rest && s[|d| + 0 + 0..] == [unit] + rest;
    assert s[|d|..|d| + 1] == [unit];
  }

  lemma ScanPart(n: nat, unit: char, rest: string)
    requires IsLetter(unit) && (rest == [] || !IsLetter(rest[0]))
    ensures n > 0 ==> Scan(Part(n, unit) + rest) == [Segment(Print(n), [], [unit], |Print(n)| + 1)] + Scan(rest)
    ensures n == 0 ==> Scan(Part(n, unit) + rest) == Scan(rest)
    ensures Leftover(Part(n, unit) + rest) == Leftover(rest)
  {
    hide MatchHead, IsLetter, IsDigit, AllDigits, Print;
    var s := Part(n, unit) + rest;
    if n > 0 {
      DigitsAndUnitMatch(Print(n), unit, rest);
      assert s == Print(n) + ([unit] + rest);
      assert s[|Print(n)| + 1..] == rest;
    } else {
      assert s == rest;
    }
  }

  function PartSegments(n: nat, unit: char): seq<Segment> {
    if n > 0 then [Segment(Print(n), [], [unit], |Print(n)| + 1)] else []
  }

  lemma PartStart(n: nat, unit: char, rest: string)
    requires rest == [] || IsDigit(rest[0])
    ensures var s := Part(n, unit) + rest; s == [] || IsDigit(s[0])
  {
    if n > 0 {
      assert (Part(n, unit) + rest)[0] == Print(n)[0];
    }
  }

  lemma ScanFormatted(h: nat, m: nat, s: nat)
    ensures var text := Part(h, 'h') + Part(m, 'm') + Part(s, 's');
            && Scan(text) == PartSegments(h, 'h') + PartSegments(m, 'm') + PartSegments(s, 's')
            && Leftover(text) == []
            && (text == [] || IsDigit(text[0]))
  {
    hide Part, Scan, Leftover;
    var tail := Part(s, 's');
    var rest := Part(m, 'm') + tail;
    PartStart(s, 's', []);
    assert Part(s, 's') + [] == tail;
    PartStart(m, 'm', tail);
    PartStart(h, 'h', rest);
    ScanPart(s, 's', []);
    ScanPart(m, 'm', tail);
    ScanPart(h, 'h', rest);
    EmptyScan();
    assert Part(h, 'h') + Part(m, 'm') + tail == Part(h, 'h') + rest;
  }

  lemma EmptyScan()
    ensures Scan([]) == [] && Leftover([]) == []
  {
  }

  predicate IsPlain(c: char) {
    IsDigit(c) || 'a' <= c <= 'z'
  }

  /** Text of digits and small letters is left alone by the clean-up. */
  lemma PlainIsClean(s: string)
    requires forall i :: 0 <= i < |s| ==> IsPlain(s[i])
    ensures Trim(s) == s && Lower(s) == s && Compact(s) == s
    ensures s != [] && IsDigit(s[0]) ==> Cleaned(s) == s
  {
    hide Lower, TrimLeft, TrimRight, Compact, IsSpace, IsPlain;
    SpacesArePlainless();
    PlainIsCompact(s);
    LowerIdle(s);
    if s == [] {
      TrimOfNothing();
    } else {
      TrimIdle(s);
    }
    assert EVERY[0] == 'e' && !IsDigit('e');
  }

  lemma TrimOfNothing()
    ensures Trim([]) == []
  {
  }

  lemma {:induction false} PlainIsCompact(s: string)
    requires forall i :: 0 <= i < |s| ==> IsPlain(s[i])
    ensures Compact(s) == s
  {
    if s != [] {
      PlainIsCompact(s[1..]);
    }
  }

  lemma FormattedIsPlain(total: nat)
    ensures var s := FormatSeconds(total); forall i :: 0 <= i < |s| ==> IsPlain(s[i])
  {
    PartIsPlain(total / 3600, 'h');
    PartIsPlain(total % 3600 / 60, 'm');
    PartIsPlain(total % 60, 's');
  }

  lemma PartIsPlain(n: nat, unit: char)
    requires 'a' <= unit <= 'z'
    ensures forall i :: 0 <= i < |Part(n, unit)| ==> IsPlain(Part(n, unit)[i])
  {
    assert AllDigits(Print(n));
  }

  function UnitMs(unit: char): Option<real> {
    if unit == 'h' then Some(3_600_000.0) else if unit == 'm' then Some(60_000.0) else if unit == 's' then Some(1_000.0) else None
  }

  lemma UnitFactor(unit: char)
    requires UnitMs(unit).Some?
    ensures FactorOf([unit]) == Some(Ms(UnitMs(unit).value))
  {
    assert [unit] == "h" || [unit] == "m" || [unit] == "s";
  }

  lemma NumberOfPrinted(n: nat, unit: char)
    ensures NumberOf(Segment(Print(n), [], [unit], |Print(n)| + 1)) == n as real
  {
    ValueOfPrint(n);
    assert PowerOfTen(0) == 1.0 && Value([]) == 0;
  }

  /** What a part adds, in milliseconds. */
  function PartMs(n: nat, unit: char): real
    requires UnitMs(unit).Some?
  {
    n as real * UnitMs(unit).value
  }

  lemma TotalOfSnoc(before: seq<Segment>, m: Segment, sum: real, more: real)
    requires WellScanned(before) && Total(before) == Some(Ms(sum)) && AllDigits(m.whole) && AllDigits(m.fraction)
    requires FactorOf(m.unit).Some? && Times(NumberOf(m), FactorOf(m.unit).value) == Ms(more)
    ensures WellScanned(before + [m]) && Total(before + [m]) == Some(Ms(sum + more))
  {
    hide FactorOf, NumberOf, AllDigits, Times;
    var all := before + [m];
    assert all[..|all| - 1] == before && all[|all| - 1] == m;
  }

  lemma PartIsWorth(n: nat, unit: char)
    requires UnitMs(unit).Some?
    ensures var m := Segment(Print(n), [], [unit], |Print(n)| + 1);
            FactorOf(m.unit).Some? && Times(NumberOf(m), FactorOf(m.unit).value) == Ms(PartMs(n, unit))
  {
    hide FactorOf, NumberOf, UnitMs, AllDigits, Print;
    UnitFactor(unit);
    NumberOfPrinted(n, unit);
  }

  lemma TotalOfPart(before: seq<Segment>, n: nat, unit: char, sum: real)
    requires WellScanned(before) && Total(before) == Some(Ms(sum)) && UnitMs(unit).Some?
    ensures WellScanned(before + PartSegments(n, unit))
    ensures Total(before + PartSegments(n, unit)) == Some(Ms(sum + PartMs(n, unit)))
  {
    hide FactorOf, NumberOf, UnitMs, AllDigits, Total, WellScanned;
    if n > 0 {
      NoDigits();
      PartIsWorth(n, unit);
      TotalOfSnoc(before, Segment(Print(n), [], [unit], |Print(n)| + 1), sum, PartMs(n, unit));
    } else {
      assert before + PartSegments(n, unit) == before;
      assert PartMs(0, unit) == 0.0;
    }
  }

  lemma NoDigits()
    ensures AllDigits([])
  {
  }

  lemma TotalFormatted(h: nat, m: nat, s: nat)
    ensures var ms := PartSegments(h, 'h') + PartSegments(m, 'm') + PartSegments(s, 's');
            WellScanned(ms) && Total(ms) == Some(Ms(h as real * 3_600_000.0 + m as real * 60_000.0 + s as real * 1_000.0))
  {
    hide PartSegments, Total, WellScanned;
    EmptyTotal();
    TotalOfPart([], h, 'h', 0.0);
    assert [] + PartSegments(h, 'h') == PartSegments(h, 'h');
    TotalOfPart(PartSegments(h, 'h'), m, 'm', PartMs(h, 'h'));
    TotalOfPart(PartSegments(h, 'h') + PartSegments(m, 'm'), s, 's', PartMs(h, 'h') + PartMs(m, 'm'));
  }

  lemma EmptyTotal()
    ensures WellScanned([]) && Total([]) == Some(Ms(0.0))
  {
  }

  lemma SecondsSplit(total: nat)
    ensures (total / 3600) * 3600 + (total % 3600 / 60) * 60 + total % 60 == total
    ensures total >= 1 ==> FormatSeconds(total) == Part(total / 3600, 'h') + Part(total % 3600 / 60, 'm') + Part(total % 60, 's')
  {
    assert total % 60 == total % 3600 % 60;
  }

  lemma BareEndsInADigit(s: string)
    requires IsBareNumber(s)
    ensures s != [] && IsDigit(s[|s| - 1])
  {
    var d := DigitsLength(s);
    var f := FractionLength(s[d..]);
    if f == 0 {
      assert s[..d][d - 1] == s[|s| - 1];
    } else {
      var digits := s[d..][1..];
      assert digits[..f - 1][f - 2] == s[|s| - 1];
    }
  }

  lemma NotBare(s: string)
    requires s != [] && IsLetter(s[|s| - 1])
    ensures !IsBareNumber(s)
  {
    if IsBareNumber(s) {
      BareEndsInADigit(s);
    }
  }

  lemma FormattedEndsInALetter(total: nat)
    ensures FormatSeconds(total) != [] && IsLetter(FormatSeconds(total)[|FormatSeconds(total)| - 1])
  {
  }

  lemma SumOfParts(h: nat, m: nat, s: nat, total: nat)
    requires h * 3600 + m * 60 + s == total
    ensures h as real * 3_600_000.0 + m as real * 60_000.0 + s as real * 1_000.0 == total as real * 1000.0
  {
    assert h as real * 3600.0 + m as real * 60.0 + s as real == total as real;
  }

  lemma ParseUnfolds(text: string, ms: seq<Segment>, total: Millis)
    requires text != [] && Cleaned(text) == text && !IsBareNumber(text)
    requires Scan(text) == ms && ms != [] && Leftover(Compact(text)) == []
    requires WellScanned(ms) && Total(ms) == Some(total)
    ensures Parse(text) == Bounded(total)
  {
    hide Scan, Total, Leftover, Cleaned, IsBareNumber, FactorOf, Bounded, Compact;
  }

  /** Parsing what the formatter prints gives the same duration and the same text, for every whole second
      from thirty seconds to a day. */
  lemma ParseOfFormat(total: nat)
    requires 30 <= total <= 86_400
    ensures Parse(FormatSeconds(total)) == Ok(Parsed(Ms(total as real * 1000.0), FormatSeconds(total)))
  {
    hide Scan, Leftover, Total, Part, PartSegments, FormatSeconds, Cleaned, IsBareNumber, Parse, IsPlain, Compact, FormatHuman, Lower, Trim;
    var text := FormatSeconds(total);
    var h, m, s := total / 3600, total % 3600 / 60, total % 60;
    var ms := PartSegments(h, 'h') + PartSegments(m, 'm') + PartSegments(s, 's');
    SecondsSplit(total);
    ScanFormatted(h, m, s);
    FormattedIsPlain(total);
    PlainIsClean(text);
    FormattedEndsInALetter(total);
    NotBare(text);
    TotalFormatted(h, m, s);
    SumOfParts(h, m, s, total);
    SomePart(h, m, s, total);
    ParseUnfolds(text, ms, Ms(total as real * 1000.0));
    RoundsToItself(total);
  }

  lemma SomePart(h: nat, m: nat, s: nat, total: nat)
    requires h * 3600 + m * 60 + s == total && total > 0
    ensures PartSegments(h, 'h') + PartSegments(m, 'm') + PartSegments(s, 's') != []
  {
  }

  lemma RoundsToItself(total: nat)
    ensures FormatHuman(Ms(total as real * 1000.0)) == FormatSeconds(total)
  {
    hide FormatSeconds;
    var x := total as real;
    assert x * 1000.0 / 1000.0 == x;
    assert (x + 0.5).Floor == total;
  }

  // ---------------------------------------------------------------- a loose number is ignored

  lemma {:induction false} LooseDigits(d: string, rest: string)
    requires AllDigits(d) && rest != [] && IsDigit(rest[0])
    ensures Scan(d + [' '] + rest) == Scan(rest)
    decreases |d|
  {
    var s := d + [' '] + rest;
    if d == [] {
      assert s == [' '] + rest;
      assert DigitsLength(s) == 0;
      assert s[1..] == rest;
    } else {
      assert s == d + ([' '] + rest);
      DigitsThenNot(d, [' '] + rest);
      assert s[|d|..] == [' '] + rest;
      assert FractionLength(s[|d|..]) == 0;
      assert ([' '] + rest)[1..] == rest;
      assert SpacesLength(s[|d|..]) == 1 + SpacesLength(rest);
      assert SpacesLength(rest) == 0;
      assert s[|d| + 1..] == rest;
      assert LettersLength(rest) == 0;
      assert MatchHead(s).None?;
      assert s[1..] == d[1..] + [' '] + rest;
      LooseDigits(d[1..], rest);
    }
  }

  lemma {:induction false} CompactOfConcat(a: string, b: string)
    ensures Compact(a + b) == Compact(a) + Compact(b)
  {
    if a == [] {
      assert a + b == b;
    } else {
      assert (a + b)[1..] == a[1..] + b;
      CompactOfConcat(a[1..], b);
    }
  }

  lemma LeftoverAfterMatch(s: string, rest: string)
    requires s != [] && MatchHead(s).Some? && s[MatchHead(s).value.length..] == rest
    ensures Leftover(s) == Leftover(rest)
  {
    hide MatchHead;
  }

  lemma LongerNumber(d: string, n: nat, unit: char, rest: string)
    requires AllDigits(d) && n > 0 && IsLetter(unit) && (rest == [] || !IsLetter(rest[0])) && Leftover(rest) == []
    ensures Leftover(d + (Part(n, unit) + rest)) == []
  {
    hide IsLetter, MatchHead, Print, AllDigits, Leftover;
    var digits := d + Print(n);
    var s := digits + ([unit] + rest);
    DigitsJoin(d, Print(n));
    DigitsAndUnitMatch(digits, unit, rest);
    assert s[|digits| + 1..] == rest;
    LeftoverAfterMatch(s, rest);
    assert d + (Part(n, unit) + rest) == s;
  }

  lemma DigitsJoin(a: string, b: string)
    requires AllDigits(a) && AllDigits(b)
    ensures AllDigits(a + b)
  {
  }

  lemma LeftoverFormatted(m: nat, s: nat)
    ensures var text := Part(m, 'm') + Part(s, 's'); Leftover(text) == [] && (text == [] || !IsLetter(text[0]))
    ensures Leftover(Part(s, 's')) == [] && (Part(s, 's') == [] || !IsLetter(Part(s, 's')[0]))
  {
    hide Scan, Leftover, Part, PartSegments, IsLetter, IsDigit;
    ScanFormatted(0, m, s);
    ScanFormatted(0, 0, s);
    NoPart(0, 'h', Part(m, 'm'));
    NoPart(0, 'h', Part(0, 'm'));
    NoPart(0, 'm', Part(s, 's'));
    assert Part(0, 'h') + Part(m, 'm') == Part(m, 'm');
    assert Part(0, 'h') + Part(0, 'm') + Part(s, 's') == Part(s, 's');
    DigitsAreNotLetters();
  }

  lemma DigitsAreNotLetters()
    ensures forall c :: IsDigit(c) ==> !IsLetter(c)
  {
  }

  /** Digits in front of the first printed number only lengthen it. */
  lemma LeftoverWithDigits(d: string, h: nat, m: nat, s: nat)
    requires AllDigits(d) && h + m + s > 0
    ensures Leftover(d + (Part(h, 'h') + Part(m, 'm') + Part(s, 's'))) == []
  {
    hide Leftover, Part, IsLetter, AllDigits;
    LeftoverFormatted(m, s);
    EmptyScan();
    NoPart(h, 'h', Part(m, 'm') + Part(s, 's'));
    NoPart(m, 'm', Part(s, 's'));
    assert Part(h, 'h') + Part(m, 'm') + Part(s, 's') == Part(h, 'h') + (Part(m, 'm') + Part(s, 's'));
    SmallLettersAreLetters();
    if h > 0 {
      LongerNumber(d, h, 'h', Part(m, 'm') + Part(s, 's'));
    } else if m > 0 {
      LongerNumber(d, m, 'm', Part(s, 's'));
    } else {
      LongerNumber(d, s, 's', []);
      assert Part(s, 's') + [] == Part(s, 's');
    }
  }

  lemma SmallLettersAreLetters()
    ensures IsLetter('h') && IsLetter('m') && IsLetter('s')
  {
  }

  lemma NoPart(n: nat, unit: char, rest: string)
    ensures n == 0 ==> Part(n, unit) + rest == rest
  {
  }

  /** A number without a unit in front of an interval is accepted and ignored: "1 30s" means thirty seconds. */
  lemma LooseNumberIsIgnored(k: nat, total: nat)
    requires 30 <= total <= 86_400
    ensures Parse(Print(k) + [' '] + FormatSeconds(total)) == Parse(FormatSeconds(total))
  {
    hide Scan, Leftover, Total, Part, PartSegments, FormatSeconds, IsBareNumber, Cleaned, Compact, Lower, Trim, Parse, Bounded;
    var text := FormatSeconds(total);
    var loose := Print(k) + [' '] + text;
    var h, m, s := total / 3600, total % 3600 / 60, total % 60;
    SecondsSplit(total);
    ScanFormatted(h, m, s);
    FormattedIsPlain(total);
    FormattedEndsInALetter(total);
    PlainIsClean(text);
    LooseDigits(Print(k), text);
    PlainIsClean(Print(k));
    LooseIsClean(Print(k), text);
    NotBare(text);
    NotBare(loose);
    LeftoverWithDigits(Print(k), h, m, s);
    TotalFormatted(h, m, s);
    SomePart(h, m, s, total);
    var ms := PartSegments(h, 'h') + PartSegments(m, 'm') + PartSegments(s, 's');
    ParseUnfolds(text, ms, Total(ms).value);
    ParseUnfolds(loose, ms, Total(ms).value);
  }

  lemma LooseIsClean(d: string, text: string)
    requires AllDigits(d) && d != [] && text != []
    requires forall i :: 0 <= i < |text| ==> IsPlain(text[i])
    ensures var s := d + [' '] + text; Cleaned(s) == s && Compact(s) == d + text
  {
    hide Lower, TrimLeft, TrimRight, Compact, IsSpace;
    var s := d + [' '] + text;
    SpacesArePlainless();
    TrimIdle(s);
    assert forall i :: 0 <= i < |s| ==> IsPlain(s[i]) || s[i] == ' ';
    LowerIdle(s);
    assert EVERY[0] == 'e' && s[0] == d[0];
    CompactOfConcat(d + [' '], text);
    CompactOfConcat(d, [' ']);
    CompactOfSpace();
    PlainIsCompact(d);
    PlainIsCompact(text);
  }

  lemma SpacesArePlainless()
    ensures forall c :: IsPlain(c) ==> !IsSpace(c)
  {
  }

  lemma CompactOfSpace()
    ensures Compact([' ']) == []
  {
    assert [' '][1..] == [];
  }

  lemma TrimIdle(s: string)
    requires s != [] && !IsSpace(s[0]) && !IsSpace(s[|s| - 1])
    ensures Trim(s) == s
  {
  }

  lemma LowerIdle(s: string)
    requires forall i :: 0 <= i < |s| ==> IsPlain(s[i]) || s[i] == ' '
    ensures Lower(s) == s
  {
  }
}
