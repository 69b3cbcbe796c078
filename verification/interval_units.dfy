// What one number with one unit is worth, and what is refused.
module IntervalUnits {
  import opened Common
  import opened Decimal
  import opened Text
  import opened IntervalParser
  import opened IntervalDropped

  /** The units a user can write, and their milliseconds. */
  predicate IsWorth(unit: string, ms: int) {
    || (unit in {"s", "sec", "secs", "second", "seconds"} && ms == 1_000)
    || (unit in {"m", "min", "mins", "minute", "minutes"} && ms == 60_000)
    || (unit in {"h", "hr", "hrs", "hour", "hours"} && ms == 3_600_000)
    || (unit in {"d", "day", "days"} && ms == 86_400_000)
  }

  predicate IsWord(unit: string) {
    unit != [] && forall i :: 0 <= i < |unit| ==> 'a' <= unit[i] <= 'z'
  }

  lemma UnitsAreWords(unit: string, ms: int)
    requires IsWorth(unit, ms)
    ensures IsWord(unit) && FactorOf(unit) == Some(Ms(ms as real))
  {
  }

  /** Nothing else is a unit, apart from the name every object carries. */
  lemma OnlyTheseAreUnits(unit: string)
    ensures FactorOf(unit).Some? <==> unit == "constructor" || exists ms :: IsWorth(unit, ms)
  {
    assert unit in SECONDS ==> IsWorth(unit, 1_000);
    assert unit in MINUTES ==> IsWorth(unit, 60_000);
    assert unit in HOURS ==> IsWorth(unit, 3_600_000);
    assert unit in DAYS ==> IsWorth(unit, 86_400_000);
  }

  /** A number: digits, and digits after a point if there are any. */
  function NumberText(whole: string, fraction: string): string {
    whole + PointPart(fraction)
  }

  function PointPart(fraction: string): string {
    if fraction == [] then [] else ['.'] + fraction
  }

  predicate IsNumberText(whole: string, fraction: string) {
    whole != [] && AllDigits(whole) && AllDigits(fraction)
  }

  /** Its value: the fraction counts tenths, hundredths and so on. */
  function Worth(whole: string, fraction: string): real
    requires IsNumberText(whole, fraction)
  {
    Value(whole) as real + Value(fraction) as real / PowerOfTen(|fraction|)
  }

  lemma SegmentIs(whole: string, fraction: string, unit: string)
    requires IsNumberText(whole, fraction) && IsWord(unit)
    ensures var text := NumberText(whole, fraction) + unit;
            MatchHead(text) == Some(Segment(whole, fraction, unit, |text|))
  {
    hide LettersLength, DigitsLength, FractionLength, SpacesLength, AllDigits;
    var point := PointPart(fraction);
    var text := whole + point + unit;
    AllLetters(unit);
    PointIsNumber(whole, fraction, unit);
    NumberLengths(whole, point, unit);
    WordHasNoBlank(unit);
    assert text[|whole| + |point| + 0..] == unit;
    assert text[..|whole|] == whole;
    assert text[|whole| + |point|..|whole| + |point| + |unit|] == unit;
    if fraction != [] {
      assert text[|whole| + 1..|whole| + |point|] == fraction;
    }
  }

  lemma PointIsNumber(whole: string, fraction: string, unit: string)
    requires IsNumberText(whole, fraction) && IsWord(unit)
    ensures IsNumber(whole, PointPart(fraction)) && EndsNumber(PointPart(fraction), unit)
  {
    assert fraction != [] ==> PointPart(fraction)[1..] == fraction;
  }

  lemma WordHasNoBlank(unit: string)
    requires IsWord(unit)
    ensures SpacesLength(unit) == 0
  {
  }

  lemma {:induction false} AllLetters(unit: string)
    requires forall i :: 0 <= i < |unit| ==> 'a' <= unit[i] <= 'z'
    ensures LettersLength(unit) == |unit|
  {
    if unit != [] {
      AllLetters(unit[1..]);
    }
  }

  lemma ScanOne(whole: string, fraction: string, unit: string)
    requires IsNumberText(whole, fraction) && IsWord(unit)
    ensures var text := NumberText(whole, fraction) + unit;
            Scan(text) == [Segment(whole, fraction, unit, |text|)] && Leftover(text) == []
  {
    hide MatchHead;
    var text := NumberText(whole, fraction) + unit;
    SegmentIs(whole, fraction, unit);
    assert text[|text|..] == [];
    EmptyScan();
  }

  lemma TextIsClean(whole: string, fraction: string, unit: string)
    requires IsNumberText(whole, fraction) && IsWord(unit)
    ensures var text := NumberText(whole, fraction) + unit;
            text != [] && Cleaned(text) == text && Compact(text) == text && !IsBareNumber(text)
  {
    hide Lower, TrimLeft, TrimRight, Compact, IsSpace, IsBareNumber;
    var text := NumberText(whole, fraction) + unit;
    assert forall i :: 0 <= i < |text| ==> IsDigit(text[i]) || text[i] == '.' || 'a' <= text[i] <= 'z';
    PlainAndPoint(text);
    assert text[0] == whole[0] && EVERY[0] == 'e';
    NotBare(text);
  }

  lemma PlainAndPoint(text: string)
    requires text != [] && forall i :: 0 <= i < |text| ==> IsDigit(text[i]) || text[i] == '.' || 'a' <= text[i] <= 'z'
    ensures Trim(text) == text && Lower(text) == text && Compact(text) == text
  {
    hide TrimLeft, TrimRight, Compact, Lower;
    assert forall i :: 0 <= i < |text| ==> !IsSpace(text[i]);
    TrimIdle(text);
    LowerIsIdentity(text);
    NothingToCompact(text);
  }

  lemma {:induction false} NothingToCompact(text: string)
    requires forall i :: 0 <= i < |text| ==> !IsSpace(text[i])
    ensures Compact(text) == text
  {
    if text != [] {
      NothingToCompact(text[1..]);
    }
  }

  lemma TotalOfOne(m: Segment)
    requires AllDigits(m.whole) && AllDigits(m.fraction)
    ensures Total([m]) == if FactorOf(m.unit).None? then None else Some(Plus(Ms(0.0), Times(NumberOf(m), FactorOf(m.unit).value)))
  {
    hide FactorOf, NumberOf;
    assert [m][..0] == [];
  }

  /** One number with one unit is worth the number times the unit: too long above a day, too short below half a minute,
      else accepted with exactly that many milliseconds. */
  lemma OneUnitIsWorth(whole: string, fraction: string, unit: string, ms: int)
    requires IsNumberText(whole, fraction) && IsWorth(unit, ms)
    ensures var r, sum := Parse(NumberText(whole, fraction) + unit), Worth(whole, fraction) * ms as real;
            && (r == Err(TooLong) <==> sum > 86_400_000.0) && (r == Err(TooShort) <==> sum < 30_000.0)
            && (30_000.0 <= sum <= 86_400_000.0 ==> r.Ok? && r.value.ms == Ms(sum))
  {
    hide Scan, Total, Leftover, Cleaned, IsBareNumber, FactorOf, Compact, IsWord, IsWorth, FormatHuman, NumberText;
    var text := NumberText(whole, fraction) + unit;
    var m := Segment(whole, fraction, unit, |text|);
    UnitsAreWords(unit, ms);
    ScanOne(whole, fraction, unit);
    TextIsClean(whole, fraction, unit);
    TotalOfOne(m);
    var sum := Worth(whole, fraction) * (ms as real);
    assert m.unit == unit && FactorOf(unit) == Some(Ms(ms as real));
    assert NumberOf(m) == Worth(whole, fraction);
    assert Times(NumberOf(m), Ms(ms as real)) == Ms(sum);
    assert Total([m]) == Some(Ms(sum));
    ParseUnfolds(text, [m], Ms(sum));
  }

  /** With a word that is no unit the text cannot be read. */
  lemma UnknownUnitIsRefused(whole: string, fraction: string, unit: string)
    requires IsNumberText(whole, fraction) && IsWord(unit) && unit != "constructor" && forall ms :: !IsWorth(unit, ms)
    ensures Parse(NumberText(whole, fraction) + unit) == Err(Unparseable)
  {
    hide Scan, Total, Leftover, Cleaned, IsBareNumber, FactorOf, Compact, IsWord, NumberText;
    var text := NumberText(whole, fraction) + unit;
    OnlyTheseAreUnits(unit);
    ScanOne(whole, fraction, unit);
    TextIsClean(whole, fraction, unit);
    TotalOfOne(Segment(whole, fraction, unit, |text|));
  }

  /** A number alone asks for a unit; nothing at all, or no number, cannot be read. */
  lemma NumberAloneNeedsUnit(whole: string, fraction: string)
    requires IsNumberText(whole, fraction)
    ensures Parse(NumberText(whole, fraction)) == Err(NeedsUnit)
    ensures Parse("") == Err(Unparseable) && Parse("soon") == Err(Unparseable)
  {
    var text := NumberText(whole, fraction);
    assert forall i :: 0 <= i < |text| ==> IsDigit(text[i]) || text[i] == '.' || 'a' <= text[i] <= 'z';
    PlainAndPoint(text);
    assert text[0] == whole[0] && EVERY[0] == 'e';
    BareIsBare(whole, fraction);
    NoIntervals();
  }

  lemma BareIsBare(whole: string, fraction: string)
    requires IsNumberText(whole, fraction)
    ensures IsBareNumber(NumberText(whole, fraction))
  {
    var text, point := NumberText(whole, fraction), PointPart(fraction);
    DigitsThenNot(whole, point);
    assert text[|whole|..] == point;
    if fraction != [] {
      DigitsThenNot(fraction, []);
      assert fraction + [] == fraction && point[1..] == fraction;
    }
  }

  lemma NoIntervals()
    ensures Parse("") == Err(Unparseable) && Parse("soon") == Err(Unparseable)
  {
    hide Lower, TrimLeft, TrimRight, Compact, MatchHead, IsBareNumber;
    TrimOfNothing();
    LowerIsIdentity("");
    PlainAndPoint("soon");
    NotBare("soon");
    assert !(EVERY <= "soon") && !(EVERY <= "") by {
      assert EVERY[0] == 'e';
    }
    assert "soon"[1..] == "oon" && "oon"[1..] == "on" && "on"[1..] == "n" && "n"[1..] == "";
    NoDigitNoHead("soon");
    NoDigitNoHead("oon");
    NoDigitNoHead("on");
    NoDigitNoHead("n");
    assert Scan("n") == [] && Scan("on") == [] && Scan("oon") == [];
    assert Scan("soon") == [];
  }

  lemma NoDigitNoHead(s: string)
    requires s != [] && !IsDigit(s[0])
    ensures MatchHead(s).None?
  {
  }

  /** The word "every" and a blank are taken off a plain text. */
  lemma EveryIsTakenOff(text: string)
    requires text != [] && forall i :: 0 <= i < |text| ==> IsDigit(text[i]) || text[i] == '.' || 'a' <= text[i] <= 'z'
    ensures Cleaned("every " + text) == text
  {
    hide TrimLeft, TrimRight, Lower;
    var every := "every " + text;
    PlainAndPoint(text);
    assert every[0] == 'e' && every[|every| - 1] == text[|text| - 1];
    TrimIdle(every);
    assert forall i :: 0 <= i < |every| ==> !('A' <= every[i] <= 'Z');
    LowerIsIdentity(every);
    assert every[..6] == EVERY && every[6..] == text;
  }

  /** The word "every" in front changes nothing, and neither does the case of the letters. */
  lemma EveryIsIdle(whole: string, fraction: string, unit: string)
    requires IsNumberText(whole, fraction) && IsWord(unit)
    ensures Parse("every " + (NumberText(whole, fraction) + unit)) == Parse(NumberText(whole, fraction) + unit)
  {
    hide Scan, Total, Leftover, IsBareNumber, FactorOf, Compact, Cleaned;
    var text := NumberText(whole, fraction) + unit;
    TextIsClean(whole, fraction, unit);
    assert forall i :: 0 <= i < |text| ==> IsDigit(text[i]) || text[i] == '.' || 'a' <= text[i] <= 'z';
    EveryIsTakenOff(text);
  }

  lemma CaseIsIdle(a: string, b: string)
    requires Lower(Trim(a)) == Lower(Trim(b))
    ensures Parse(a) == Parse(b)
  {
    hide Scan, Total, Leftover, IsBareNumber, Lower, Trim;
  }

  /** What is shown of an accepted interval: whole seconds, the nearest, halves up. */
  lemma HalvesRoundUp()
    ensures Parse("30.5s").Ok? && Parse("30.5s").value.human == "31s"
    ensures Parse("1.5h").Ok? && Parse("1.5h").value == Parsed(Ms(5_400_000.0), "1h30m")
  {
    hide Parse, FormatHuman, FormatSeconds;
    Halves("30", "s", 1_000, 30_500);
    Halves("1", "h", 3_600_000, 5_400_000);
    ShownAs();
    assert "30" + ".5" + "s" == "30.5s" && "1" + ".5" + "h" == "1.5h";
  }

  lemma ShownAs()
    ensures FormatHuman(Ms(30_500.0)) == "31s" && FormatHuman(Ms(5_400_000.0)) == "1h30m"
  {
    assert FormatSeconds(31) == "31s" by {
      assert Print(31) == Print(3) + [DigitChar(1)];
    }
    assert FormatSeconds(5_400) == "1h30m" by {
      assert Print(30) == Print(3) + [DigitChar(0)] && Print(1) == "1";
    }
    hide FormatSeconds;
    assert (30_500.0 / 1000.0 + 0.5).Floor == 31 && (5_400_000.0 / 1000.0 + 0.5).Floor == 5_400;
  }

  lemma Halves(whole: string, unit: string, ms: int, sum: int)
    requires (whole == "30" && unit == "s" && ms == 1_000 && sum == 30_500) || (whole == "1" && unit == "h" && ms == 3_600_000 && sum == 5_400_000)
    ensures var r := Parse(whole + ".5" + unit); r == Ok(Parsed(Ms(sum as real), FormatHuman(Ms(sum as real))))
  {
    hide Scan, Total, Leftover, Cleaned, IsBareNumber, Compact, FormatHuman;
    assert Value("30") == 30 by {
      assert "30"[..1] == "3" && "3"[..0] == "";
      assert Value("3") == 3;
    }
    assert Value("1") == 1 by {
      assert "1"[..0] == "";
    }
    assert Value("5") == 5 by {
      assert "5"[..0] == "";
    }
    assert PowerOfTen(1) == 10.0 * PowerOfTen(0) == 10.0;
    assert IsWorth(unit, ms);
    assert NumberText(whole, "5") == whole + ".5";
    OneUnitIsWorth(whole, "5", unit, ms);
    AcceptedShows(whole + ".5" + unit);
  }

  lemma AcceptedShows(input: string)
    requires Parse(input).Ok?
    ensures Parse(input).value.human == FormatHuman(Parse(input).value.ms)
  {
    hide Scan, Total, Leftover, Cleaned, IsBareNumber, Compact, FormatHuman;
  }
}
