// Sunday written as 7: what rewriting a day-of-week field makes of a part that names it.
module CronSunday {
  import opened Common
  import opened Cron
  import opened Decimal
  import opened Text

  datatype Days = Star | Day(n: nat) | Span(a: nat, b: nat)

  /** One part of a day-of-week field, and its text. */
  datatype Part = Part(days: Days, step: Option<nat>)

  function DaysText(d: Days): string {
    match d
    case Star => "*"
    case Day(n) => Print(n)
    case Span(a, b) => Print(a) + ['-'] + Print(b)
  }

  function PartText(p: Part): string {
    if p.step.Some? then DaysText(p.days) + ['/'] + Print(p.step.value) else DaysText(p.days)
  }

  /** The conversion to an integer reads printed numbers; nothing is said of other texts. */
  ghost predicate ReadsNumbers(num: ToInteger) {
    forall n: nat :: num(Print(n)) == Some(n)
  }

  // ---------------------------------------------------------------- the rewriting, token by token

  function Zeroed(n: nat): nat {
    if n == 7 then 0 else n
  }

  function ZeroedDays(d: Days): Days {
    match d
    case Star => Star
    case Day(n) => Day(Zeroed(n))
    case Span(a, b) => Span(Zeroed(a), Zeroed(b))
  }

  function ZeroedPart(p: Part): Part {
    Part(ZeroedDays(p.days), if p.step.Some? then Some(Zeroed(p.step.value)) else None)
  }

  lemma SevenOfConcat(a: string, c: char, b: string)
    requires !IsWord(c)
    ensures SevenToZero(a + [c] + b) == SevenToZero(a) + [c] + SevenToZero(b)
  {
    var s := a + [c] + b;
    assert forall i :: 0 <= i < |s| ==> s[i] == if i < |a| then a[i] else if i == |a| then c else b[i - |a| - 1];
  }

  lemma SevenOfNumber(n: nat)
    ensures SevenToZero(Print(n)) == Print(Zeroed(n))
  {
    var s := Print(n);
    assert Print(7) == "7" && Print(0) == "0";
    if n == 7 {
    } else {
      if s == "7" {
        PrintInjective(n, 7);
      }
      assert forall i :: 0 <= i < |s| ==> IsDigit(s[i]) && IsWord(s[i]);
      assert |s| == 1 ==> s[0] != '7';
    }
  }

  /** A 7 beside a letter, a digit or an underscore, told by code point, stays; beside anything else it becomes 0. */
  lemma SevenBeside(c: char)
    ensures var p := c as int;
            var stays := 48 <= p <= 57 || 65 <= p <= 90 || p == 95 || 97 <= p <= 122;
            && (SevenToZero(['7', c])[0] == if stays then '7' else '0')
            && (SevenToZero([c, '7'])[1] == if stays then '7' else '0')
  {
  }

  /** Only numbers that are exactly 7 are rewritten. */
  lemma RewritesTokens(p: Part)
    ensures SevenToZero(PartText(p)) == PartText(ZeroedPart(p))
  {
    hide SevenToZero, Print;
    DaysRewritten(p.days);
    if p.step.Some? {
      SevenOfConcat(DaysText(p.days), '/', Print(p.step.value));
      SevenOfNumber(p.step.value);
    }
  }

  lemma DaysRewritten(d: Days)
    ensures SevenToZero(DaysText(d)) == DaysText(ZeroedDays(d))
  {
    match d
    case Star =>
    case Day(n) => SevenOfNumber(n);
    case Span(a, b) =>
      hide SevenToZero, Print;
      SevenOfConcat(Print(a), '-', Print(b));
      SevenOfNumber(a);
      SevenOfNumber(b);
  }

  /** A field is rewritten part by part. */
  lemma {:induction false} FieldIsRewrittenByParts(parts: seq<string>)
    requires parts != [] && forall i :: 0 <= i < |parts| ==> ',' !in parts[i]
    ensures Split(SevenToZero(Join(parts, ',')), ',') == seq(|parts|, i requires 0 <= i < |parts| => SevenToZero(parts[i]))
  {
    var zeroed := seq(|parts|, i requires 0 <= i < |parts| => SevenToZero(parts[i]));
    JoinIsRewritten(parts, zeroed);
    assert forall i :: 0 <= i < |zeroed| ==> ',' !in zeroed[i];
    SplitOfJoin(zeroed, ',');
  }

  lemma {:induction false} JoinIsRewritten(parts: seq<string>, zeroed: seq<string>)
    requires parts != [] && |zeroed| == |parts| && forall i :: 0 <= i < |parts| ==> zeroed[i] == SevenToZero(parts[i])
    ensures SevenToZero(Join(parts, ',')) == Join(zeroed, ',')
  {
    hide SevenToZero;
    if |parts| > 1 {
      JoinIsRewritten(parts[1..], zeroed[1..]);
      SevenOfConcat(parts[0], ',', Join(parts[1..], ','));
    }
  }

  // ---------------------------------------------------------------- reading a part

  function StepValue(p: Part): nat {
    if p.step.Some? then p.step.value else 1
  }

  function Read(p: Part, lo: int, hi: int): Result<Range, CronError> {
    var step := StepValue(p);
    if step == 0 then Err(InvalidStep)
    else
      var (from, to) := match p.days
                        case Star => (lo, hi)
                        case Day(n) => (n as int, if step > 1 then hi else n)
                        case Span(a, b) => (a as int, b as int);
      if from < lo || to > hi || from > to then Err(OutOfRange) else Ok(Range(from, to, step))
  }

  lemma AbsentIndex(s: string, c: char)
    requires c !in s
    ensures IndexOf(s, c) == |s|
  {
  }

  lemma DaysAreSlashless(d: Days)
    ensures '/' !in DaysText(d)
  {
    hide Print;
  }

  lemma BoundsRead(num: ToInteger, d: Days, step: nat, lo: int, hi: int)
    requires ReadsNumbers(num)
    ensures BoundsOf(num, DaysText(d), step, lo, hi) ==
            match d
            case Star => (Some(lo), Some(hi))
            case Day(n) => (Some(n as int), if step > 1 then Some(hi) else Some(n as int))
            case Span(a, b) => (Some(a as int), Some(b as int))
  {
    hide Print, Split;
    match d
    case Star =>
    case Day(n) => assert Print(n)[0] != '*';
    case Span(a, b) =>
      var text := DaysText(d);
      assert text[|Print(a)|] == '-' && text[0] == Print(a)[0];
      assert [Print(a), Print(b)][1..] == [Print(b)];
      assert Join([Print(a), Print(b)], '-') == text;
      SplitOfJoin([Print(a), Print(b)], '-');
  }

  lemma PartReads(num: ToInteger, p: Part, lo: int, hi: int)
    requires ReadsNumbers(num)
    ensures ParsePart(num, PartText(p), lo, hi) == Read(p, lo, hi)
  {
    hide Print, BoundsOf, DaysText;
    var text, days := PartText(p), DaysText(p.days);
    DaysAreSlashless(p.days);
    BoundsRead(num, p.days, StepValue(p), lo, hi);
    if p.step.Some? {
      IndexInConcat(days, '/', Print(p.step.value));
      assert text[..|days|] == days && text[|days| + 1..] == Print(p.step.value);
    } else {
      AbsentIndex(text, '/');
      assert text[..|text|] == days;
    }
  }

  // ---------------------------------------------------------------- when 7 reads as Sunday

  predicate NamesSeven(p: Part) {
    || p.step == Some(7) || p.days == Day(7)
    || (p.days.Span? && (p.days.a == 7 || p.days.b == 7))
  }

  /** 7 and 0 are the same day. */
  function Weekday(x: int): int {
    if x == 7 then 0 else x
  }

  ghost predicate MeansDay(r: Range, d: int)
    requires r.step > 0
  {
    exists x :: Within(r, x) && Weekday(x) == d
  }

  /** Refused both, or the same days. */
  ghost predicate SameDays(code: Result<Range, CronError>, meant: Result<Range, CronError>)
    requires (code.Ok? ==> code.value.step > 0) && (meant.Ok? ==> meant.value.step > 0)
  {
    && (code.Ok? <==> meant.Ok?)
    && (code.Ok? ==> forall d :: Within(code.value, d) <==> MeansDay(meant.value, d))
  }

  /** What the code makes of a part is what the part says of the days 0 to 7. */
  ghost predicate SevenIsSunday(num: ToInteger, p: Part) {
    SameDays(ParsePart(num, SevenToZero(PartText(p)), 0, 6), ParsePart(num, PartText(p), 0, 7))
  }

  /** Readable from the text: 7 is not the step, does not start a range that steps or runs backwards, and does
      not end a range that starts on another day of the week. Parts refused either way do no harm. */
  predicate SevenIsSafe(p: Part) {
    var step := StepValue(p);
    if step == 7 then Read(p, 0, 7).Err?
    else if step == 0 then true
    else match p.days
      case Star => true
      case Day(n) => n != 7 || step == 1 || step > 7
      case Span(a, b) => if a == 7 then b >= 7 else b == 7 ==> a > 7 || (a == 0 && step > 7)
  }

  lemma OnlyStart(from: int, to: int, step: int, x: int)
    requires step > 0 && from <= to < from + step
    ensures Within(Range(from, to, step), x) <==> x == from
  {
    if from < x <= to {
      assert x - from < step;
      SmallRest(x - from, step);
    }
  }

  lemma SmallRest(a: int, step: int)
    requires 0 <= a < step
    ensures a % step == a
  {
  }

  /** A range from Sunday with a step of at most six reaches another day. */
  lemma SecondDay(to: int, step: int)
    requires 0 < step <= to
    ensures Within(Range(0, to, step), step)
  {
    assert step % step == 0;
  }

  lemma JustSunday(code: Range, meant: Range)
    requires code.step > 0 && meant.step > 0
    requires forall d :: Within(code, d) <==> d == 0
    requires forall x :: Within(meant, x) <==> x == 7
    ensures SameDays(Ok(code), Ok(meant))
  {
    hide Within;
    forall d
      ensures Within(code, d) <==> MeansDay(meant, d)
    {
      if d == 0 {
        assert Within(meant, 7) && Weekday(7) == 0;
      }
    }
  }

  lemma DaySevenIff(step: nat)
    requires step > 0 && step != 7
    ensures SameDays(Read(Part(Day(0), Some(step)), 0, 6), Read(Part(Day(7), Some(step)), 0, 7)) <==> step == 1 || step > 7
  {
    var code, meant := Read(Part(Day(0), Some(step)), 0, 6).value, Read(Part(Day(7), Some(step)), 0, 7).value;
    forall x
      ensures Within(meant, x) <==> x == 7
    {
      OnlyStart(7, 7, step, x);
    }
    if step == 1 || step > 7 {
      forall x
        ensures Within(code, x) <==> x == 0
      {
        OnlyStart(0, if step == 1 then 0 else 6, step, x);
      }
      JustSunday(code, meant);
    } else {
      SecondDay(6, step);
      assert !MeansDay(meant, step);
    }
  }

  lemma SpanSevenIff(a: nat, b: nat, step: nat)
    requires step > 0 && step != 7 && (a == 7 || b == 7)
    ensures SameDays(Read(Part(Span(Zeroed(a), Zeroed(b)), Some(step)), 0, 6), Read(Part(Span(a, b), Some(step)), 0, 7))
            <==> SevenIsSafe(Part(Span(a, b), Some(step)))
  {
    var code, meant := Read(Part(Span(Zeroed(a), Zeroed(b)), Some(step)), 0, 6), Read(Part(Span(a, b), Some(step)), 0, 7);
    if code.Ok? && meant.Ok? {
      forall x
        ensures Within(code.value, x) <==> x == 0
      {
        OnlyStart(0, 0, step, x);
      }
      if a == 7 {
        forall x
          ensures Within(meant.value, x) <==> x == 7
        {
          OnlyStart(7, 7, step, x);
        }
        JustSunday(code.value, meant.value);
      } else if step > 7 {
        forall x
          ensures Within(meant.value, x) <==> x == 0
        {
          OnlyStart(0, 7, step, x);
        }
        SundayAlone(code.value, meant.value);
      } else {
        SecondDay(7, step);
        assert Weekday(step) == step && MeansDay(meant.value, step);
      }
    }
  }

  lemma SundayAlone(code: Range, meant: Range)
    requires code.step > 0 && meant.step > 0
    requires forall d :: Within(code, d) <==> d == 0
    requires forall x :: Within(meant, x) <==> x == 0
    ensures SameDays(Ok(code), Ok(meant))
  {
    hide Within;
    forall d
      ensures Within(code, d) <==> MeansDay(meant, d)
    {
      if d == 0 {
        assert Within(meant, 0) && Weekday(0) == 0;
      }
    }
  }

  /** The code reads a stand-alone 7 as Sunday in exactly the safe parts. */
  lemma SevenIsSundayIff(num: ToInteger, p: Part)
    requires ReadsNumbers(num) && NamesSeven(p)
    ensures SevenIsSunday(num, p) <==> SevenIsSafe(p)
  {
    hide ParsePart, PartText, SevenToZero, MeansDay, Within, ReadsNumbers;
    RewritesTokens(p);
    PartReads(num, ZeroedPart(p), 0, 6);
    PartReads(num, p, 0, 7);
    var step := StepValue(p);
    if step != 7 && step != 0 {
      match p.days
      case Star =>
      case Day(n) => DaySevenIff(step);
      case Span(a, b) => SpanSevenIff(a, b, step);
    }
  }

  // ---------------------------------------------------------------- a whole field

  function Texts(parts: seq<Part>): (r: seq<string>)
    ensures |r| == |parts| && forall i :: 0 <= i < |r| ==> r[i] == PartText(parts[i])
  {
    seq(|parts|, i requires 0 <= i < |parts| => PartText(parts[i]))
  }

  function FieldText(parts: seq<Part>): string
    requires parts != []
  {
    Join(Texts(parts), ',')
  }

  /** What a part says: of the days 0 to 7 if it names 7, else of the days 0 to 6. */
  function Says(num: ToInteger, p: Part): (r: Result<Range, CronError>)
    ensures r.Ok? ==> r.value.step > 0
  {
    ParsePart(num, PartText(p), 0, if NamesSeven(p) then 7 else 6)
  }

  /** The code accepts the field exactly when each part can be read, and it then denotes the days the parts say,
      with 7 as Sunday. */
  ghost predicate FieldIsRight(num: ToInteger, parts: seq<Part>)
    requires parts != []
  {
    var field := SevenToZero(FieldText(parts));
    && (FieldError(num, field, 0, 6).None? <==> forall i :: 0 <= i < |parts| ==> Says(num, parts[i]).Ok?)
    && (FieldError(num, field, 0, 6).None? ==>
          forall d :: Denotes(num, Split(field, ','), 0, 6, d) <==> SomePartMeans(num, parts, d))
  }

  ghost predicate SomePartMeans(num: ToInteger, parts: seq<Part>, d: int) {
    exists i :: 0 <= i < |parts| && Says(num, parts[i]).Ok? && MeansDay(Says(num, parts[i]).value, d)
  }

  predicate IsPlain(c: char) {
    IsDigit(c) || c == '*' || c == '-' || c == '/'
  }

  lemma PartIsPlain(p: Part)
    ensures forall i :: 0 <= i < |PartText(p)| ==> IsPlain(PartText(p)[i])
  {
    hide Print;
  }

  lemma {:induction false} JoinIsPlain(pieces: seq<string>)
    requires pieces != [] && forall i, j :: 0 <= i < |pieces| && 0 <= j < |pieces[i]| ==> IsPlain(pieces[i][j])
    ensures forall j :: 0 <= j < |Join(pieces, ',')| ==> IsPlain(Join(pieces, ',')[j]) || Join(pieces, ',')[j] == ','
  {
    if |pieces| > 1 {
      JoinIsPlain(pieces[1..]);
    }
  }

  lemma {:induction false} FirstErrorIff(num: ToInteger, parts: seq<string>, lo: int, hi: int)
    ensures FirstError(num, parts, lo, hi).None? <==> forall i :: 0 <= i < |parts| ==> ParsePart(num, parts[i], lo, hi).Ok?
  {
    hide ParsePart;
    if parts != [] {
      FirstErrorIff(num, parts[1..], lo, hi);
      assert forall i :: 1 <= i < |parts| ==> parts[i] == parts[1..][i - 1];
    }
  }

  /** A part that is safe, or does not name 7, is read as it says. */
  lemma PartIsRight(num: ToInteger, p: Part)
    requires ReadsNumbers(num) && (NamesSeven(p) ==> SevenIsSafe(p))
    ensures SameDays(ParsePart(num, SevenToZero(PartText(p)), 0, 6), Says(num, p))
  {
    hide ParsePart, PartText, SevenToZero, Within, ReadsNumbers, SevenIsSafe;
    if NamesSeven(p) {
      SevenIsSundayIff(num, p);
    } else {
      RewritesTokens(p);
      assert ZeroedPart(p) == p;
      if Says(num, p).Ok? {
        WeekdayIsItself(Says(num, p).value);
      }
    }
  }

  lemma WeekdayIsItself(r: Range)
    requires r.step > 0 && 0 <= r.from && r.to <= 6
    ensures forall d :: Within(r, d) <==> MeansDay(r, d)
  {
    forall d
      ensures Within(r, d) <==> MeansDay(r, d)
    {
      if Within(r, d) {
        assert Weekday(d) == d;
      }
    }
  }

  lemma FieldParts(parts: seq<Part>)
    requires parts != []
    ensures var pieces := Split(SevenToZero(FieldText(parts)), ',');
            |pieces| == |parts| && forall i :: 0 <= i < |parts| ==> pieces[i] == SevenToZero(PartText(parts[i]))
    ensures forall j :: 0 <= j < |SevenToZero(FieldText(parts))| ==> !IsUnsupported(SevenToZero(FieldText(parts))[j])
  {
    hide PartText, Print, Split, Join;
    forall i | 0 <= i < |parts|
      ensures forall j :: 0 <= j < |PartText(parts[i])| ==> IsPlain(PartText(parts[i])[j])
    {
      PartIsPlain(parts[i]);
    }
    FieldIsRewrittenByParts(Texts(parts));
    JoinIsPlain(Texts(parts));
    var text := FieldText(parts);
    assert forall j :: 0 <= j < |text| ==> IsPlain(text[j]) || text[j] == ',';
    assert forall j :: 0 <= j < |text| ==> SevenToZero(text)[j] == text[j] || SevenToZero(text)[j] == '0';
  }

  /** A field whose parts that name 7 are all safe denotes the union of what its parts say, 7 being Sunday. */
  lemma FieldOfSafeParts(num: ToInteger, parts: seq<Part>)
    requires parts != [] && ReadsNumbers(num) && forall i :: 0 <= i < |parts| && NamesSeven(parts[i]) ==> SevenIsSafe(parts[i])
    ensures FieldIsRight(num, parts)
  {
    hide ParsePart, PartText, SevenToZero, Within, ReadsNumbers, SevenIsSafe, NamesSeven, Says, MeansDay, FieldText, Split;
    forall i | 0 <= i < |parts|
      ensures SameDays(ParsePart(num, SevenToZero(PartText(parts[i])), 0, 6), Says(num, parts[i]))
    {
      PartIsRight(num, parts[i]);
    }
    PartsMakeTheField(num, parts);
  }

  lemma PartsMakeTheField(num: ToInteger, parts: seq<Part>)
    requires parts != []
    requires forall i :: 0 <= i < |parts| ==> SameDays(ParsePart(num, SevenToZero(PartText(parts[i])), 0, 6), Says(num, parts[i]))
    ensures FieldIsRight(num, parts)
  {
    hide ParsePart, PartText, SevenToZero, Within, Says, MeansDay, FieldText, Split;
    FieldParts(parts);
    var pieces := Split(SevenToZero(FieldText(parts)), ',');
    FirstErrorIff(num, pieces, 0, 6);
    forall d | FieldError(num, SevenToZero(FieldText(parts)), 0, 6).None?
      ensures Denotes(num, pieces, 0, 6, d) <==> SomePartMeans(num, parts, d)
    {
      assert forall i :: 0 <= i < |parts| ==>
          (Within(ParsePart(num, pieces[i], 0, 6).value, d) <==> MeansDay(Says(num, parts[i]).value, d));
    }
  }

  /** Not only then: another part may bring the days an unsafe one loses, as in "0-7,1-6". */
  lemma AnotherPartMayHelp(num: ToInteger)
    requires ReadsNumbers(num)
    ensures var parts := [Part(Span(0, 7), None), Part(Span(1, 6), None)];
            FieldIsRight(num, parts) && !SevenIsSafe(parts[0])
  {
    hide ParsePart, PartText, SevenToZero, Within, ReadsNumbers, MeansDay, FieldText, Split, FieldError, Denotes, Says;
    var week, rest := Part(Span(0, 7), None), Part(Span(1, 6), None);
    var parts := [week, rest];
    RewritesTokens(week);
    RewritesTokens(rest);
    PartReads(num, ZeroedPart(week), 0, 6);
    PartReads(num, week, 0, 7);
    PartReads(num, rest, 0, 6);
    assert Says(num, week) == Ok(Range(0, 7, 1)) && Says(num, rest) == Ok(Range(1, 6, 1)) by {
      SaysReads(num, week);
      SaysReads(num, rest);
    }
    FieldParts(parts);
    var field := SevenToZero(FieldText(parts));
    var pieces := Split(field, ',');
    WholeWeek(num, parts, field, pieces);
  }

  lemma SaysReads(num: ToInteger, p: Part)
    requires ReadsNumbers(num)
    ensures Says(num, p) == Read(p, 0, if NamesSeven(p) then 7 else 6)
  {
    PartReads(num, p, 0, if NamesSeven(p) then 7 else 6);
  }

  lemma WholeWeek(num: ToInteger, parts: seq<Part>, field: string, pieces: seq<string>)
    requires |parts| == 2 && field == SevenToZero(FieldText(parts)) && pieces == Split(field, ',') && |pieces| == 2
    requires forall j :: 0 <= j < |field| ==> !IsUnsupported(field[j])
    requires ParsePart(num, pieces[0], 0, 6) == Ok(Range(0, 0, 1)) && ParsePart(num, pieces[1], 0, 6) == Ok(Range(1, 6, 1))
    requires Says(num, parts[0]) == Ok(Range(0, 7, 1)) && Says(num, parts[1]) == Ok(Range(1, 6, 1))
    ensures FieldIsRight(num, parts)
  {
    hide ParsePart, SevenToZero, FieldText, Split, Says, Denotes, SomePartMeans, Within, MeansDay;
    FirstErrorIff(num, pieces, 0, 6);
    forall d
      ensures Denotes(num, pieces, 0, 6, d) <==> SomePartMeans(num, parts, d)
    {
      DenotesTwo(num, pieces, d);
      MeansTwo(num, parts, d);
      DaysOfRanges(d);
    }
  }

  lemma DenotesTwo(num: ToInteger, pieces: seq<string>, d: int)
    requires |pieces| == 2 && ParsePart(num, pieces[0], 0, 6).Ok? && ParsePart(num, pieces[1], 0, 6).Ok?
    ensures Denotes(num, pieces, 0, 6, d) <==>
            Within(ParsePart(num, pieces[0], 0, 6).value, d) || Within(ParsePart(num, pieces[1], 0, 6).value, d)
  {
    hide ParsePart, Within;
  }

  lemma MeansTwo(num: ToInteger, parts: seq<Part>, d: int)
    requires |parts| == 2 && Says(num, parts[0]).Ok? && Says(num, parts[1]).Ok?
    ensures SomePartMeans(num, parts, d) <==> MeansDay(Says(num, parts[0]).value, d) || MeansDay(Says(num, parts[1]).value, d)
  {
    hide Says, MeansDay;
  }

  lemma DaysOfRanges(d: int)
    ensures Within(Range(0, 0, 1), d) || Within(Range(1, 6, 1), d) <==> 0 <= d <= 6
    ensures MeansDay(Range(0, 7, 1), d) || MeansDay(Range(1, 6, 1), d) <==> 0 <= d <= 6
  {
    if 0 <= d <= 6 {
      assert Within(Range(0, 7, 1), d) && Weekday(d) == d;
    }
  }

  // ---------------------------------------------------------------- the ways it fails

  /** "5-7" is refused. */
  lemma RangeToSevenIsRefused(num: ToInteger, a: nat)
    requires ReadsNumbers(num) && 1 <= a <= 6
    ensures ParsePart(num, SevenToZero(Print(a) + "-7"), 0, 6) == Err(OutOfRange)
    ensures ParsePart(num, Print(a) + "-7", 0, 7) == Ok(Range(a, 7, 1))
  {
    var p := Part(Span(a, 7), None);
    assert PartText(p) == Print(a) + "-7" by {
      assert Print(7) == "7";
    }
    RewritesTokens(p);
    PartReads(num, ZeroedPart(p), 0, 6);
    PartReads(num, p, 0, 7);
  }

  /** "0-7", the whole week, is accepted and denotes Sunday alone. */
  lemma WholeWeekShrinksToSunday(num: ToInteger)
    requires ReadsNumbers(num)
    ensures ParsePart(num, SevenToZero("0-7"), 0, 6) == Ok(Range(0, 0, 1))
    ensures ParsePart(num, "0-7", 0, 7) == Ok(Range(0, 7, 1))
  {
    var p := Part(Span(0, 7), None);
    assert PartText(p) == "0-7" by {
      assert Print(7) == "7" && Print(0) == "0";
    }
    RewritesTokens(p);
    PartReads(num, ZeroedPart(p), 0, 6);
    PartReads(num, p, 0, 7);
  }

  /** A step of 7 becomes a step of 0, which is refused. */
  lemma StepOfSevenIsRefused(num: ToInteger, days: Days)
    requires ReadsNumbers(num)
    ensures ParsePart(num, SevenToZero(PartText(Part(days, Some(7)))), 0, 6) == Err(InvalidStep)
    ensures ParsePart(num, "*/7", 0, 7) == Ok(Range(0, 7, 7))
  {
    var p := Part(days, Some(7));
    RewritesTokens(p);
    PartReads(num, ZeroedPart(p), 0, 6);
    assert PartText(Part(Star, Some(7))) == "*/7" by {
      assert Print(7) == "7";
    }
    PartReads(num, Part(Star, Some(7)), 0, 7);
  }

  /** "7/2" becomes every second day, and "7-3" a range although it runs backwards. */
  lemma SevenAtTheStartGrows(num: ToInteger)
    requires ReadsNumbers(num)
    ensures ParsePart(num, SevenToZero("7/2"), 0, 6) == Ok(Range(0, 6, 2)) && ParsePart(num, "7/2", 0, 7) == Ok(Range(7, 7, 2))
    ensures ParsePart(num, SevenToZero("7-3"), 0, 6) == Ok(Range(0, 3, 1)) && ParsePart(num, "7-3", 0, 7) == Err(OutOfRange)
  {
    var p, q := Part(Day(7), Some(2)), Part(Span(7, 3), None);
    assert PartText(p) == "7/2" && PartText(q) == "7-3" by {
      assert Print(7) == "7" && Print(2) == "2" && Print(3) == "3";
    }
    RewritesTokens(p);
    RewritesTokens(q);
    PartReads(num, ZeroedPart(p), 0, 6);
    PartReads(num, p, 0, 7);
    PartReads(num, ZeroedPart(q), 0, 6);
    PartReads(num, q, 0, 7);
  }
}
