// Cron expressions: what a field denotes, and the search for the next matching minute.
module Cron {
  import opened Common
  import opened Text

  const MINUTE_MS := 60_000
  const HORIZON_MS := 4 * 366 * 86_400_000
  const MAX_FIRES_PER_DAY := 1440

  datatype CronError = UnsupportedCharacter | InvalidStep | OutOfRange | FieldCount | TooManyFires

  /** Values `from`, `from + step`, … up to `to`. */
  datatype Range = Range(from: int, to: int, step: int)

  datatype CronSpec = CronSpec(minutes: seq<int>, hours: seq<int>, dom: seq<int>, month: seq<int>, dow: seq<int>, domStar: bool, dowStar: bool)

  datatype Fields = Fields(minute: int, hour: int, dom: int, month: int, dow: int)

  /** `Number` followed by the integer test. */
  type ToInteger = string -> Option<int>

  // ---------------------------------------------------------------- one part of a field

  predicate Within(r: Range, x: int)
    requires r.step > 0
  {
    r.from <= x <= r.to && (x - r.from) % r.step == 0
  }

  /** The step after the slash, if there is one. */
  function StepOf(num: ToInteger, part: string): Result<int, CronError> {
    var slash := IndexOf(part, '/');
    if slash == |part| then Ok(1)
    else
      var n := num(part[slash + 1..]);
      if n.None? || n.value <= 0 then Err(InvalidStep) else Ok(n.value)
  }

  function BoundsOf(num: ToInteger, range: string, step: int, lo: int, hi: int): (Option<int>, Option<int>) {
    if range == "*" then (Some(lo), Some(hi))
    else if '-' in range then
      var ends := Split(range, '-');
      (num(ends[0]), if |ends| > 1 then num(ends[1]) else None)
    else (num(range), if step > 1 then Some(hi) else num(range))
  }

  function ParsePart(num: ToInteger, part: string, lo: int, hi: int): (r: Result<Range, CronError>)
    ensures r.Ok? ==> r.value.step > 0 && lo <= r.value.from <= r.value.to <= hi
    ensures r != Err(TooManyFires)
  {
    match StepOf(num, part)
    case Err(e) => Err(e)
    case Ok(step) =>
      var (from, to) := BoundsOf(num, part[..IndexOf(part, '/')], step, lo, hi);
      if from.None? || to.None? || from.value < lo || to.value > hi || from.value > to.value then Err(OutOfRange)
      else Ok(Range(from.value, to.value, step))
  }

  predicate IsUnsupported(c: char) {
    c == '?' || c == 'L' || c == '#'
  }

  /** The first thing wrong with a list of parts. */
  function FirstError(num: ToInteger, parts: seq<string>, lo: int, hi: int): (r: Option<CronError>)
    ensures r != Some(TooManyFires)
  {
    if parts == [] then None
    else if ParsePart(num, parts[0], lo, hi).Err? then Some(ParsePart(num, parts[0], lo, hi).error)
    else FirstError(num, parts[1..], lo, hi)
  }

  function FieldError(num: ToInteger, field: string, lo: int, hi: int): (r: Option<CronError>)
    ensures r != Some(TooManyFires)
  {
    if exists i :: 0 <= i < |field| && IsUnsupported(field[i]) then Some(UnsupportedCharacter)
    else FirstError(num, Split(field, ','), lo, hi)
  }

  /** `x` belongs to one of the parts. */
  ghost predicate Denotes(num: ToInteger, parts: seq<string>, lo: int, hi: int, x: int) {
    exists i :: 0 <= i < |parts| && ParsePart(num, parts[i], lo, hi).Ok? && Within(ParsePart(num, parts[i], lo, hi).value, x)
  }

  ghost predicate StrictlySorted(s: seq<int>) {
    forall i, j :: 0 <= i < j < |s| ==> s[i] < s[j]
  }

  // ---------------------------------------------------------------- a whole field

  /** Add a value to a strictly sorted list, once. */
  method AddSorted(s: seq<int>, x: int) returns (r: seq<int>)
    requires StrictlySorted(s)
    ensures StrictlySorted(r) && forall y :: y in r <==> y in s || y == x
  {
    var i := |s|;
    while i > 0 && s[i - 1] > x
      invariant 0 <= i <= |s|
      invariant forall j :: i <= j < |s| ==> s[j] > x
    {
      i := i - 1;
    }
    if i > 0 && s[i - 1] == x {
      return s;
    }
    r := s[..i] + [x] + s[i..];
    InsertedSorted(s, i, x);
  }

  lemma InsertedSorted(s: seq<int>, i: nat, x: int)
    requires StrictlySorted(s) && i <= |s|
    requires (i > 0 ==> s[i - 1] < x) && forall j :: i <= j < |s| ==> s[j] > x
    ensures var r := s[..i] + [x] + s[i..]; StrictlySorted(r) && forall y :: y in r <==> y in s || y == x
  {
    var r := s[..i] + [x] + s[i..];
    assert forall j :: 0 <= j < |r| ==> r[j] == if j < i then s[j] else if j == i then x else s[j - 1];
    assert r[i] == x;
    forall y | y in s
      ensures y in r
    {
      var j :| 0 <= j < |s| && s[j] == y;
      assert r[if j < i then j else j + 1] == y;
    }
  }

  /** The strictly sorted union of what the parts denote, or the first error. */
  method ExpandField(num: ToInteger, field: string, lo: int, hi: int) returns (r: Result<seq<int>, CronError>)
    ensures r.Err? <==> FieldError(num, field, lo, hi).Some?
    ensures r.Err? ==> FieldError(num, field, lo, hi) == Some(r.error)
    ensures r.Ok? ==> StrictlySorted(r.value) && forall x :: x in r.value <==> Denotes(num, Split(field, ','), lo, hi, x)
    ensures r.Ok? ==> forall x :: x in r.value ==> lo <= x <= hi
  {
    if exists i :: 0 <= i < |field| && IsUnsupported(field[i]) {
      return Err(UnsupportedCharacter);
    }
    var parts := Split(field, ',');
    var out: seq<int> := [];
    for p := 0 to |parts|
      invariant StrictlySorted(out)
      invariant FirstError(num, parts[p..], lo, hi) == FirstError(num, parts, lo, hi)
      invariant forall x :: x in out <==> Denotes(num, parts[..p], lo, hi, x)
    {
      assert parts[p..][0] == parts[p] && parts[p..][1..] == parts[p + 1..];
      var parsed := ParsePart(num, parts[p], lo, hi);
      if parsed.Err? {
        return Err(parsed.error);
      }
      ghost var before := out;
      out := AddRange(out, parsed.value);
      forall x
        ensures x in out <==> Denotes(num, parts[..p + 1], lo, hi, x)
      {
        DenotesOneMore(num, parts, p, lo, hi, x);
      }
    }
    assert parts[..|parts|] == parts;
    return Ok(out);
  }

  lemma DenotesOneMore(num: ToInteger, parts: seq<string>, p: nat, lo: int, hi: int, x: int)
    requires p < |parts| && ParsePart(num, parts[p], lo, hi).Ok?
    ensures Denotes(num, parts[..p + 1], lo, hi, x) <==>
            Denotes(num, parts[..p], lo, hi, x) || Within(ParsePart(num, parts[p], lo, hi).value, x)
  {
    hide ParsePart, Within;
    var more := parts[..p + 1];
    assert forall i :: 0 <= i < p ==> more[i] == parts[..p][i];
    assert more[p] == parts[p];
    if Denotes(num, parts[..p], lo, hi, x) {
      var i :| 0 <= i < p && ParsePart(num, parts[..p][i], lo, hi).Ok? && Within(ParsePart(num, parts[..p][i], lo, hi).value, x);
      assert more[i] == parts[..p][i];
    }
  }

  /** The inner loop: from the start of a range in steps. */
  method AddRange(s: seq<int>, range: Range) returns (r: seq<int>)
    requires StrictlySorted(s) && range.step > 0
    ensures StrictlySorted(r) && forall x :: x in r <==> x in s || Within(range, x)
  {
    r := s;
    var i := range.from;
    while i <= range.to
      invariant StrictlySorted(r) && i >= range.from && (i - range.from) % range.step == 0
      invariant forall x :: x in r <==> x in s || (Within(range, x) && x < i)
      decreases range.to - i
    {
      NoneBetween(range, i);
      r := AddSorted(r, i);
      i := i + range.step;
    }
  }

  lemma NoneBetween(range: Range, i: int)
    requires range.step > 0 && i >= range.from && (i - range.from) % range.step == 0
    ensures (i + range.step - range.from) % range.step == 0
    ensures forall x :: i < x < i + range.step ==> !Within(range, x)
  {
    StepAhead(i - range.from, range.step);
    forall x | i < x < i + range.step
      ensures !Within(range, x)
    {
      NotAMultiple(i - range.from, x - i, range.step);
    }
  }

  lemma StepAhead(a: int, step: int)
    requires step > 0 && a % step == 0
    ensures (a + step) % step == 0
  {
    assert a == step * (a / step);
    assert a + step == step * (a / step + 1);
    MultipleHasNoRest(a / step + 1, step);
  }

  lemma MultipleHasNoRest(q: int, step: int)
    requires step > 0
    ensures (step * q) % step == 0
  {
    RestIs(step * q, q, 0, step);
  }

  lemma NotAMultiple(a: int, d: int, step: int)
    requires step > 0 && a % step == 0 && 0 < d < step
    ensures (a + d) % step == d
  {
    RestIs(a + d, a / step, d, step);
  }

  lemma RestIs(x: int, q: int, rest: int, step: int)
    requires step > 0 && x == step * q + rest && 0 <= rest < step
    ensures x % step == rest
  {
    UniqueDivision(step, q, rest, x / step, x % step);
  }

  lemma UniqueDivision(step: int, q: int, rest: int, q2: int, rest2: int)
    requires 0 <= rest < step && 0 <= rest2 < step && step * q + rest == step * q2 + rest2
    ensures q == q2 && rest == rest2
  {
    assert step * (q - q2) == rest2 - rest;
    if q > q2 {
      AtLeastOnce(step, q - q2);
    } else if q < q2 {
      assert step * (q2 - q) == -(step * (q - q2));
      AtLeastOnce(step, q2 - q);
    }
  }

  lemma AtLeastOnce(step: int, times: int)
    requires step > 0 && times >= 1
    ensures step * times >= step
  {
    assert step * times == step + step * (times - 1);
  }

  /** A strictly sorted list inside a range is no longer than the range. */
  lemma {:induction false} SortedIsShort(s: seq<int>, lo: int, hi: int)
    requires StrictlySorted(s) && (forall x :: x in s ==> lo <= x <= hi) && lo <= hi + 1
    ensures |s| <= hi - lo + 1
  {
    if s != [] {
      var n := |s| - 1;
      assert s[0] in s && s[n] in s;
      assert forall x :: x in s[..n] ==> x in s && x < s[n];
      SortedIsShort(s[..n], lo, s[n] - 1);
    }
  }

  // ---------------------------------------------------------------- an expression

  predicate IsWord(c: char) {
    'a' <= c <= 'z' || 'A' <= c <= 'Z' || '0' <= c <= '9' || c == '_'
  }

  /** `\b7\b` becomes `0`: a 7 that stands alone. */
  function SevenToZero(s: string): (r: string)
    ensures |r| == |s|
  {
    seq(|s|, i requires 0 <= i < |s| =>
      if s[i] == '7' && (i == 0 || !IsWord(s[i - 1])) && (i + 1 == |s| || !IsWord(s[i + 1])) then '0' else s[i])
  }

  /** `fields`: the expression split at blanks. */
  method ParseCron(num: ToInteger, fields: seq<string>) returns (r: Result<CronSpec, CronError>)
    ensures r.Ok? <==> |fields| == 5 && FieldError(num, fields[0], 0, 59).None? && FieldError(num, fields[1], 0, 23).None?
                       && FieldError(num, fields[2], 1, 31).None? && FieldError(num, fields[3], 1, 12).None?
                       && FieldError(num, SevenToZero(fields[4]), 0, 6).None?
    ensures r.Ok? ==> forall f: Fields :: Matches(r.value, f) <==> ExpressionMatches(num, fields, f)
    ensures r != Err(TooManyFires)
  {
    hide FieldError, Denotes, Split;
    if |fields| != 5 {
      return Err(FieldCount);
    }
    var minutes :- ExpandField(num, fields[0], 0, 59);
    var hours :- ExpandField(num, fields[1], 0, 23);
    var dom :- ExpandField(num, fields[2], 1, 31);
    var month :- ExpandField(num, fields[3], 1, 12);
    var dow :- ExpandField(num, SevenToZero(fields[4]), 0, 6);
    SortedIsShort(minutes, 0, 59);
    SortedIsShort(hours, 0, 23);
    ProductBound(|minutes|, |hours|);
    var spec := CronSpec(minutes, hours, dom, month, dow, fields[2] == "*", fields[4] == "*");
    r := if |minutes| * |hours| > MAX_FIRES_PER_DAY then Err(TooManyFires) else Ok(spec);
  }

  lemma ProductBound(minutes: nat, hours: nat)
    requires minutes <= 60 && hours <= 24
    ensures minutes * hours <= MAX_FIRES_PER_DAY
  {
    assert minutes * hours <= 60 * hours;
  }

  // ---------------------------------------------------------------- matching a moment

  /** Days: when both are restricted either may match, else both must. */
  predicate Matches(s: CronSpec, f: Fields) {
    && f.minute in s.minutes && f.hour in s.hours && f.month in s.month
    && (if s.domStar || s.dowStar then f.dom in s.dom && f.dow in s.dow else f.dom in s.dom || f.dow in s.dow)
  }

  /** With both days restricted a schedule matches on either: nine o'clock on each 13th and on each Friday. With only one
      restricted it decides. */
  lemma ThirteenthOrFriday(months: seq<int>, days: seq<int>, f: Fields)
    requires f.minute == 0 && f.hour == 9 && f.month in months && f.dow in days
    ensures Matches(CronSpec([0], [9], [13], months, [5], false, false), f) <==> f.dom == 13 || f.dow == 5
    ensures Matches(CronSpec([0], [9], [13], months, days, false, true), f) <==> f.dom == 13
    ensures Matches(CronSpec([0], [9], [f.dom], months, [5], true, false), f) <==> f.dow == 5
    ensures !Matches(CronSpec([1], [9], [13], months, [5], false, false), f) && !Matches(CronSpec([0], [8], [13], months, [5], false, false), f)
  {
  }

  /** The search looks four leap years ahead, minute by minute; a day has at most 1440 fires. */
  lemma LimitsOfTheSearch()
    ensures HORIZON_MS == 4 * 366 * 24 * 60 * 60 * 1000 && MINUTE_MS == 60 * 1000 && MAX_FIRES_PER_DAY == 24 * 60
  {
  }

  /** A field with one of the three signs of other dialects is refused for it, whatever else is wrong. */
  lemma OtherDialectsAreRefused(num: ToInteger, field: string, lo: int, hi: int)
    ensures FieldError(num, field, lo, hi) == Some(UnsupportedCharacter) <==> '?' in field || 'L' in field || '#' in field
  {
    NoPartIsUnsupported(num, Split(field, ','), lo, hi);
  }

  lemma {:induction false} NoPartIsUnsupported(num: ToInteger, parts: seq<string>, lo: int, hi: int)
    ensures FirstError(num, parts, lo, hi) != Some(UnsupportedCharacter)
  {
    if parts != [] {
      NoPartIsUnsupported(num, parts[1..], lo, hi);
    }
  }

  ghost predicate FieldHolds(num: ToInteger, field: string, lo: int, hi: int, x: int) {
    Denotes(num, Split(field, ','), lo, hi, x)
  }

  /** The same, said of the expression. */
  ghost predicate ExpressionMatches(num: ToInteger, fields: seq<string>, f: Fields)
    requires |fields| == 5
  {
    && FieldHolds(num, fields[0], 0, 59, f.minute) && FieldHolds(num, fields[1], 0, 23, f.hour) && FieldHolds(num, fields[3], 1, 12, f.month)
    && (if fields[2] == "*" || fields[4] == "*"
        then FieldHolds(num, fields[2], 1, 31, f.dom) && FieldHolds(num, SevenToZero(fields[4]), 0, 6, f.dow)
        else FieldHolds(num, fields[2], 1, 31, f.dom) || FieldHolds(num, SevenToZero(fields[4]), 0, 6, f.dow))
  }

  // ---------------------------------------------------------------- the search

  /** The remainder of the source language: it has the sign of the dividend. */
  function JsRemainder(a: int, b: int): int
    requires b > 0
  {
    if a >= 0 then a % b else -((-a) % b)
  }

  function FirstProbe(from: int): int {
    from + MINUTE_MS - JsRemainder(from, MINUTE_MS)
  }

  predicate IsBoundary(t: int) {
    t % MINUTE_MS == 0
  }

  /** The least minute boundary strictly after `from`. */
  function NextBoundary(from: int): (t: int)
    ensures from < t <= from + MINUTE_MS && IsBoundary(t)
  {
    from + MINUTE_MS - from % MINUTE_MS
  }

  /** The search starts at the next boundary exactly from the epoch on, or from a boundary. */
  lemma FirstProbeIsNextIff(from: int)
    ensures IsBoundary(FirstProbe(from)) && FirstProbe(from) > from
    ensures FirstProbe(from) == NextBoundary(from) <==> from >= 0 || IsBoundary(from)
    ensures FirstProbe(from) != NextBoundary(from) ==> FirstProbe(from) == NextBoundary(from) + MINUTE_MS
  {
    if from < 0 {
      var m := (-from) % MINUTE_MS;
      assert -from == MINUTE_MS * ((-from) / MINUTE_MS) + m;
      RestIs(from, -((-from) / MINUTE_MS) - (if m > 0 then 1 else 0), if m > 0 then MINUTE_MS - m else 0, MINUTE_MS);
    }
  }

  /** The calendar fields of a moment in the wanted zone; nothing is assumed of them. */
  type Calendar = int -> Fields

  /** The first matching probe, minute by minute, up to the limit. */
  function Search(s: CronSpec, at: Calendar, probe: int, limit: int): Option<int>
    decreases limit - probe
  {
    if probe > limit then None
    else if Matches(s, at(probe)) then Some(probe)
    else Search(s, at, probe + MINUTE_MS, limit)
  }

  function NextFire(s: CronSpec, at: Calendar, from: int): Option<int> {
    Search(s, at, FirstProbe(from), from + HORIZON_MS)
  }

  method NextCronFire(s: CronSpec, at: Calendar, from: int) returns (r: Option<int>)
    ensures r == NextFire(s, at, from)
  {
    var probe := from + MINUTE_MS - JsRemainder(from, MINUTE_MS);
    var limit := from + HORIZON_MS;
    while probe <= limit
      invariant NextFire(s, at, from) == Search(s, at, probe, limit)
      decreases limit - probe
    {
      if Matches(s, at(probe)) {
        return Some(probe);
      }
      probe := probe + MINUTE_MS;
    }
    return None;
  }

  ghost predicate MatchAt(s: CronSpec, at: Calendar, t: int) {
    IsBoundary(t) && Matches(s, at(t))
  }

  lemma {:induction false} SearchFindsLeast(s: CronSpec, at: Calendar, probe: int, limit: int)
    requires IsBoundary(probe)
    ensures match Search(s, at, probe, limit)
            case Some(t) => probe <= t <= limit && MatchAt(s, at, t) && forall u :: probe <= u < t ==> !MatchAt(s, at, u)
            case None => forall u :: probe <= u <= limit ==> !MatchAt(s, at, u)
    decreases limit - probe
  {
    if probe <= limit {
      assert forall u :: probe < u < probe + MINUTE_MS ==> !IsBoundary(u);
      SearchFindsLeast(s, at, probe + MINUTE_MS, limit);
    }
  }

  /** The least matching boundary strictly after `from`, or none in the horizon. */
  ghost predicate IsLeastFire(s: CronSpec, at: Calendar, from: int, r: Option<int>) {
    match r
    case Some(t) => from < t <= from + HORIZON_MS && MatchAt(s, at, t) && forall u :: from < u < t ==> !MatchAt(s, at, u)
    case None => forall u :: from < u <= from + HORIZON_MS ==> !MatchAt(s, at, u)
  }

  /** The search is right from the epoch on and from any boundary; from another moment before the epoch
      exactly when the boundary it passes over does not match. */
  lemma NextFireIsLeastIff(s: CronSpec, at: Calendar, from: int)
    ensures IsLeastFire(s, at, from, NextFire(s, at, from)) <==>
            from >= 0 || IsBoundary(from) || !MatchAt(s, at, NextBoundary(from))
  {
    FirstProbeIsNextIff(from);
    SearchFindsLeast(s, at, FirstProbe(from), from + HORIZON_MS);
    var next := NextBoundary(from);
    assert forall u :: from < u < next ==> !IsBoundary(u);
    assert forall u :: next < u < next + MINUTE_MS ==> !IsBoundary(u);
  }

  lemma NextFireIsLeast(s: CronSpec, at: Calendar, from: int)
    requires from >= 0 || IsBoundary(from)
    ensures IsLeastFire(s, at, from, NextFire(s, at, from))
  {
    NextFireIsLeastIff(s, at, from);
  }

  /** A schedule of every minute misses a fire from each such moment: an input for the failing half. */
  lemma BeforeTheEpochAFireIsMissed(from: int, every: CronSpec, at: Calendar)
    requires from < 0 && !IsBoundary(from)
    requires forall t :: Matches(every, at(t))
    ensures NextFire(every, at, from) == Some(NextBoundary(from) + MINUTE_MS)
    ensures MatchAt(every, at, NextBoundary(from))
  {
    FirstProbeIsNextIff(from);
  }

  // ---------------------------------------------------------------- every fire in turn

  /** The first `n` fires after `from`, as far as the search finds them. */
  function Fires(s: CronSpec, at: Calendar, from: int, n: nat): seq<int>
    decreases n
  {
    if n == 0 then []
    else match NextFire(s, at, from)
      case None => []
      case Some(t) => [t] + Fires(s, at, t, n - 1)
  }

  /** Iterating the search lists matching minutes in order and leaves none out up to the last one listed. */
  lemma {:induction false} FiresAreAllMatches(s: CronSpec, at: Calendar, from: int, n: nat)
    requires from >= 0 || IsBoundary(from)
    ensures var fs := Fires(s, at, from, n);
            && StrictlySorted(fs)
            && (forall t :: t in fs ==> from < t && MatchAt(s, at, t))
            && (fs != [] ==> forall u :: from < u <= fs[|fs| - 1] && MatchAt(s, at, u) ==> u in fs)
    decreases n
  {
    hide NextFire, MatchAt;
    if n > 0 {
      NextFireIsLeast(s, at, from);
      var next := NextFire(s, at, from);
      if next.Some? {
        var t := next.value;
        assert IsBoundary(t) by {
          assert MatchAt(s, at, t);
          MatchIsBoundary(s, at, t);
        }
        FiresAreAllMatches(s, at, t, n - 1);
        var rest := Fires(s, at, t, n - 1);
        assert forall i :: 0 <= i < |rest| ==> rest[i] in rest;
        var fs := [t] + rest;
        assert rest != [] ==> fs[|fs| - 1] == rest[|rest| - 1];
      }
    }
  }

  lemma MatchIsBoundary(s: CronSpec, at: Calendar, t: int)
    requires MatchAt(s, at, t)
    ensures IsBoundary(t)
  {
  }
}
