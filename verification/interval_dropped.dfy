// What the interval parser lets through: characters it never looks at, and a unit that escapes the bounds.
module IntervalDropped {
  import opened Common
  import opened Decimal
  import opened Text
  import opened IntervalParser

  /** Nothing but blanks between two letters, or between two other characters: a unit or a number cut in two. */
  ghost predicate CutsToken(s: string, i: nat, j: nat)
    requires i < j < |s|
  {
    && i + 1 < j && !IsSpace(s[i]) && !IsSpace(s[j])
    && (forall k :: i < k < j ==> IsSpace(s[k]))
    && (IsLetter(s[i]) <==> IsLetter(s[j]))
  }

  ghost predicate TokensAreWhole(s: string) {
    forall i, j :: 0 <= i < j < |s| ==> !CutsToken(s, i, j)
  }

  /** Every character that is not blank belongs to a segment. */
  predicate AllScanned(s: string) {
    Compact(Leftover(s)) == []
  }

  // ---------------------------------------------------------------- runs of one kind of character

  lemma {:induction false} SpacesFacts(s: string)
    ensures var n := SpacesLength(s);
            && (forall i :: 0 <= i < n ==> IsSpace(s[i]))
            && (n < |s| ==> !IsSpace(s[n]))
            && Compact(s) == Compact(s[n..])
            && (n < |s| ==> Compact(s) != [] && Compact(s)[0] == s[n])
  {
    if s != [] && IsSpace(s[0]) {
      SpacesFacts(s[1..]);
      var n := SpacesLength(s[1..]);
      assert s[1..][n..] == s[n + 1..];
      assert forall i :: 1 <= i < n + 1 ==> s[i] == s[1..][i - 1];
    } else {
      assert s[0..] == s;
    }
  }

  lemma {:induction false} LettersFacts(s: string)
    ensures var n := LettersLength(s);
            && (forall i :: 0 <= i < n ==> IsLetter(s[i]))
            && (n < |s| ==> !IsLetter(s[n]))
  {
    if s != [] && IsLetter(s[0]) {
      LettersFacts(s[1..]);
      var n := LettersLength(s[1..]);
      assert forall i :: 1 <= i < n + 1 ==> s[i] == s[1..][i - 1];
    }
  }

  lemma FractionFacts(s: string)
    ensures var n := FractionLength(s);
            && (n > 0 ==> n >= 2 && s[0] == '.' && AllDigits(s[1..n]))
            && (0 < n < |s| ==> !IsDigit(s[n]))
  {
    if FractionLength(s) > 0 {
      var n := DigitsLength(s[1..]);
      assert s[1..][..n] == s[1..n + 1];
    }
  }

  lemma {:induction false} NoBlanksCompact(s: string)
    requires forall i :: 0 <= i < |s| ==> !IsSpace(s[i])
    ensures Compact(s) == s
  {
    if s != [] {
      NoBlanksCompact(s[1..]);
    }
  }

  lemma {:induction false} LettersOfConcat(letters: string, rest: string)
    requires forall i :: 0 <= i < |letters| ==> IsLetter(letters[i])
    ensures LettersLength(letters + rest) == |letters| + LettersLength(rest)
  {
    if letters == [] {
      assert letters + rest == rest;
    } else {
      assert (letters + rest)[1..] == letters[1..] + rest;
      LettersOfConcat(letters[1..], rest);
    }
  }

  lemma FractionThen(fraction: string, rest: string)
    requires fraction != [] && AllDigits(fraction) && (rest == [] || !IsDigit(rest[0]))
    ensures FractionLength(['.'] + fraction + rest) == 1 + |fraction|
  {
    DigitsThenNot(fraction, rest);
    assert (['.'] + fraction + rest)[1..] == fraction + rest;
  }

  lemma KindsAreApart()
    ensures forall c :: IsDigit(c) || IsLetter(c) || c == '.' ==> !IsSpace(c)
    ensures forall c :: IsLetter(c) ==> !IsDigit(c) && c != '.'
    ensures !IsDigit('.')
  {
  }

  // ---------------------------------------------------------------- a number and what follows it

  /** A number as the scan reads it: digits, perhaps a point and digits. */
  ghost predicate IsNumber(digits: string, fraction: string) {
    && digits != [] && AllDigits(digits)
    && (fraction == [] || (|fraction| >= 2 && fraction[0] == '.' && AllDigits(fraction[1..])))
  }

  /** What follows does not lengthen the number. */
  ghost predicate EndsNumber(fraction: string, tail: string) {
    tail == [] || (!IsDigit(tail[0]) && (fraction == [] && tail[0] == '.' ==> |tail| == 1 || !IsDigit(tail[1])))
  }

  lemma NumberLengths(digits: string, fraction: string, tail: string)
    requires IsNumber(digits, fraction) && EndsNumber(fraction, tail)
    ensures var s := digits + fraction + tail;
            && DigitsLength(s) == |digits| && FractionLength(s[|digits|..]) == |fraction|
            && s[|digits| + |fraction|..] == tail
  {
    var s := digits + fraction + tail;
    KindsAreApart();
    assert s == digits + (fraction + tail);
    DigitsThenNot(digits, fraction + tail);
    assert s[|digits|..] == fraction + tail;
    if fraction == [] {
      assert fraction + tail == tail;
      if tail != [] && tail[0] == '.' && |tail| > 1 {
        assert tail[1..][0] == tail[1];
      }
    } else {
      FractionThen(fraction[1..], tail);
      assert fraction == ['.'] + fraction[1..];
    }
  }

  /** With letters right behind it, the number and all the letters are one segment. */
  lemma HeadOfNumber(digits: string, fraction: string, unit: string, rest: string)
    requires IsNumber(digits, fraction) && unit != [] && forall i :: 0 <= i < |unit| ==> IsLetter(unit[i])
    ensures var m := MatchHead(digits + fraction + (unit + rest));
            m.Some? && m.value.length == |digits| + |fraction| + |unit| + LettersLength(rest)
  {
    KindsAreApart();
    NumberLengths(digits, fraction, unit + rest);
    LettersOfConcat(unit, rest);
    var s := digits + fraction + (unit + rest);
    assert s[|digits| + |fraction| + 0..] == unit + rest;
    assert SpacesLength(unit + rest) == 0;
  }

  /** With anything else right behind it there is no segment. */
  lemma NoHead(digits: string, fraction: string, tail: string)
    requires IsNumber(digits, fraction) && EndsNumber(fraction, tail)
    requires tail == [] || (!IsSpace(tail[0]) && !IsLetter(tail[0]))
    ensures MatchHead(digits + fraction + tail).None?
  {
    NumberLengths(digits, fraction, tail);
    var s := digits + fraction + tail;
    assert s[|digits| + |fraction| + 0..] == tail;
  }

  // ---------------------------------------------------------------- one step of the scan

  lemma BlankSkipped(s: string)
    requires s != [] && IsSpace(s[0])
    ensures Compact(s) == Compact(s[1..])
    ensures AllScanned(s) <==> AllScanned(s[1..])
  {
    KindsAreApart();
    assert MatchHead(s).None?;
    assert ([s[0]] + Leftover(s[1..]))[1..] == Leftover(s[1..]);
  }

  lemma CutInTail(front: string, rest: string, i: nat, j: nat)
    requires i < j < |rest|
    ensures CutsToken(rest, i, j) <==> CutsToken(front + rest, |front| + i, |front| + j)
  {
    hide IsSpace, IsLetter;
    var s, n := front + rest, |front|;
    assert s[n + i] == rest[i] && s[n + j] == rest[j];
    if CutsToken(rest, i, j) {
      assert forall k :: n + i < k < n + j ==> s[k] == rest[k - n];
    }
    if CutsToken(s, n + i, n + j) {
      assert forall k :: i < k < j ==> rest[k] == s[n + k];
    }
  }

  lemma WholeTail(front: string, rest: string)
    requires TokensAreWhole(front + rest)
    ensures TokensAreWhole(rest)
  {
    hide CutsToken;
    forall i, j | 0 <= i < j < |rest|
      ensures !CutsToken(rest, i, j)
    {
      CutInTail(front, rest, i, j);
    }
  }

  /** If no cut starts in the front, the text is whole when its tail is. */
  lemma WholeFront(front: string, rest: string)
    requires TokensAreWhole(rest)
    requires forall i, j :: 0 <= i < |front| && i < j < |front + rest| ==> !CutsToken(front + rest, i, j)
    ensures TokensAreWhole(front + rest)
  {
    hide CutsToken;
    forall i, j | |front| <= i < j < |front + rest|
      ensures !CutsToken(front + rest, i, j)
    {
      CutInTail(front, rest, i - |front|, j - |front|);
    }
  }

  lemma BlankIsNoCut(s: string)
    requires s != [] && IsSpace(s[0])
    ensures TokensAreWhole(s) <==> TokensAreWhole(s[1..])
  {
    hide IsSpace, IsLetter;
    assert s == [s[0]] + s[1..];
    if TokensAreWhole(s) {
      WholeTail([s[0]], s[1..]);
    }
    if TokensAreWhole(s[1..]) {
      WholeFront([s[0]], s[1..]);
    }
  }

  lemma UnmatchedStays(s: string)
    requires s != [] && !IsSpace(s[0]) && MatchHead(s).None?
    ensures !AllScanned(s)
  {
  }

  /** A text whose first character that is not blank is a letter is not scanned whole. */
  lemma {:induction false} LetterStays(s: string)
    requires SpacesLength(s) < |s| && IsLetter(s[SpacesLength(s)])
    ensures !AllScanned(s)
    decreases |s|
  {
    KindsAreApart();
    if IsSpace(s[0]) {
      BlankSkipped(s);
      LetterStays(s[1..]);
    } else {
      UnmatchedStays(s);
    }
  }

  lemma SomeDigits(s: string)
    ensures DigitsLength(s) > 0 <==> s != [] && IsDigit(s[0])
  {
  }

  lemma NumberAhead(s: string) returns (digits: string, fraction: string, tail: string)
    requires s != [] && IsDigit(s[0])
    ensures s == digits + fraction + tail && IsNumber(digits, fraction) && EndsNumber(fraction, tail)
    ensures |digits| == DigitsLength(s) && |fraction| == FractionLength(s[|digits|..]) && tail == s[|digits| + |fraction|..]
  {
    hide IsSpace, IsLetter, IsDigit;
    var d := DigitsLength(s);
    var after := s[d..];
    FractionFacts(after);
    var f := FractionLength(after);
    digits, fraction, tail := s[..d], after[..f], after[f..];
    if f > 0 {
      assert after[1..f] == fraction[1..];
      assert tail != [] ==> tail[0] == after[f];
    } else if tail != [] && tail[0] == '.' && |tail| > 1 {
      assert after == tail;
      assert tail[1..][0] == tail[1];
      SomeDigits(tail[1..]);
    }
  }

  lemma UnitAhead(tail: string) returns (blanks: string, unit: string, rest: string)
    ensures tail == blanks + unit + rest
    ensures |blanks| == SpacesLength(tail) && |unit| == LettersLength(tail[|blanks|..])
    ensures (forall i :: 0 <= i < |blanks| ==> IsSpace(blanks[i])) && (forall i :: 0 <= i < |unit| ==> IsLetter(unit[i]))
    ensures rest != [] ==> !IsLetter(rest[0]) && (unit == [] ==> !IsSpace(rest[0]))
  {
    hide IsSpace, IsLetter;
    SpacesFacts(tail);
    var p := SpacesLength(tail);
    LettersFacts(tail[p..]);
    var u := LettersLength(tail[p..]);
    blanks, unit, rest := tail[..p], tail[p..][..u], tail[p..][u..];
  }

  /** The head segment of a text: number, blanks, letters, and the rest that no letter starts. */
  lemma HeadParts(s: string) returns (digits: string, fraction: string, blanks: string, unit: string, rest: string)
    requires s != [] && IsDigit(s[0])
    ensures s == digits + fraction + blanks + unit + rest && IsNumber(digits, fraction)
    ensures EndsNumber(fraction, blanks + unit + rest)
    ensures (forall i :: 0 <= i < |blanks| ==> IsSpace(blanks[i])) && (forall i :: 0 <= i < |unit| ==> IsLetter(unit[i]))
    ensures rest != [] ==> !IsLetter(rest[0]) && (unit == [] ==> !IsSpace(rest[0]))
    ensures MatchHead(s).Some? <==> unit != []
    ensures unit != [] ==> MatchHead(s).value.length == |digits| + |fraction| + |blanks| + |unit|
  {
    hide IsSpace, IsLetter, IsDigit, AllDigits, DigitsLength, FractionLength, SpacesLength, LettersLength;
    var tail;
    digits, fraction, tail := NumberAhead(s);
    blanks, unit, rest := UnitAhead(tail);
    assert s[|digits| + |fraction| + |blanks|..] == tail[|blanks|..];
  }

  /** Taking the blanks out of a matched text joins its number to its unit, and perhaps to more letters. */
  lemma CompactOfHead(front: string, blanks: string, unit: string, rest: string)
    requires (forall i :: 0 <= i < |front| ==> !IsSpace(front[i])) && (forall i :: 0 <= i < |unit| ==> !IsSpace(unit[i]))
    requires forall i :: 0 <= i < |blanks| ==> IsSpace(blanks[i])
    ensures Compact(front + blanks + unit + rest) == front + (unit + Compact(rest))
  {
    NoBlanksCompact(front);
    NoBlanksCompact(unit);
    BlanksVanish(blanks);
    CompactOfFour(front, blanks, unit, rest);
  }

  lemma CompactOfFour(a: string, b: string, c: string, d: string)
    requires Compact(a) == a && Compact(b) == [] && Compact(c) == c
    ensures Compact(a + b + c + d) == a + (c + Compact(d))
  {
    hide Compact;
    var ab, abc := a + b, a + b + c;
    CompactOfConcat(a, b);
    CompactOfConcat(ab, c);
    CompactOfConcat(abc, d);
    assert Compact(ab) == a;
    assert Compact(abc) == a + c;
  }

  lemma NumberHasNoBlank(digits: string, fraction: string)
    requires IsNumber(digits, fraction)
    ensures var n := digits + fraction; forall i :: 0 <= i < |n| ==> !IsSpace(n[i]) && !IsLetter(n[i])
  {
    var n := digits + fraction;
    forall i | 0 <= i < |n|
      ensures !IsSpace(n[i]) && !IsLetter(n[i])
    {
      if i > |digits| {
        assert n[i] == fraction[1..][i - |digits| - 1];
      }
    }
  }

  lemma {:induction false} BlanksVanish(blanks: string)
    requires forall i :: 0 <= i < |blanks| ==> IsSpace(blanks[i])
    ensures Compact(blanks) == []
  {
    if blanks != [] {
      BlanksVanish(blanks[1..]);
    }
  }

  /** Behind a segment only a cut unit makes a difference. */
  lemma WholeAfterHead(front: string, blanks: string, unit: string, rest: string)
    requires front != [] && unit != [] && (forall i :: 0 <= i < |front| ==> !IsSpace(front[i]) && !IsLetter(front[i]))
    requires (forall i :: 0 <= i < |blanks| ==> IsSpace(blanks[i])) && (forall i :: 0 <= i < |unit| ==> IsLetter(unit[i]))
    requires var b := SpacesLength(rest); b < |rest| ==> !IsLetter(rest[b])
    ensures TokensAreWhole(front + blanks + unit + rest) <==> TokensAreWhole(rest)
  {
    hide CutsToken, IsSpace, IsLetter, SpacesLength;
    var head := front + blanks + unit;
    LettersAreNoBlanks(unit);
    SpacesFacts(rest);
    if TokensAreWhole(head + rest) {
      WholeTail(head, rest);
    }
    if TokensAreWhole(rest) {
      forall i, j | 0 <= i < |head| && i < j < |head + rest|
        ensures !CutsToken(head + rest, i, j)
      {
        NoCutInHead(front, blanks, unit, rest, i, j);
      }
      WholeFront(head, rest);
    }
  }

  lemma LettersAreNoBlanks(unit: string)
    requires forall i :: 0 <= i < |unit| ==> IsLetter(unit[i])
    ensures forall i :: 0 <= i < |unit| ==> !IsSpace(unit[i])
  {
  }

  lemma NoCutInHead(front: string, blanks: string, unit: string, rest: string, i: nat, j: nat)
    requires front != [] && unit != [] && (forall i :: 0 <= i < |front| ==> !IsSpace(front[i]) && !IsLetter(front[i]))
    requires (forall i :: 0 <= i < |blanks| ==> IsSpace(blanks[i]))
    requires (forall i :: 0 <= i < |unit| ==> IsLetter(unit[i]) && !IsSpace(unit[i]))
    requires var b := SpacesLength(rest); (b < |rest| ==> !IsLetter(rest[b]) && !IsSpace(rest[b])) && (forall k :: 0 <= k < b ==> IsSpace(rest[k]))
    requires i < |front + blanks + unit| && i < j < |front + blanks + unit + rest|
    ensures !CutsToken(front + blanks + unit + rest, i, j)
  {
    hide IsSpace, IsLetter, SpacesLength;
    var s := front + blanks + unit + rest;
    var a, b, n := |front|, |front + blanks|, |front + blanks + unit|;
    assert forall k :: 0 <= k < |s| ==> s[k] == if k < a then front[k] else if k < b then blanks[k - a] else if k < n then unit[k - b] else rest[k - n];
    if i + 1 < j && !IsSpace(s[i]) && !IsSpace(s[j]) && (forall k :: i < k < j ==> IsSpace(s[k])) {
      assert IsSpace(s[i + 1]);
      var c := n + SpacesLength(rest);
      if i < a {
        assert i == a - 1;
        assert !IsSpace(s[b]);
        assert j == b;
      } else {
        assert i == n - 1;
        assert j >= n;
        assert c < |s| ==> !IsSpace(s[c]);
        assert j == c;
      }
    }
  }

  /** A unit that goes on behind blanks: cut, and the rest of it is not scanned. */
  lemma CutUnit(s: string, n: nat)
    requires 0 < n <= |s| && IsLetter(s[n - 1])
    requires var b := SpacesLength(s[n..]); 0 < b < |s| - n && IsLetter(s[n + b])
    ensures !TokensAreWhole(s) && !AllScanned(s[n..])
  {
    var b := SpacesLength(s[n..]);
    SpacesFacts(s[n..]);
    LetterStays(s[n..]);
    KindsAreApart();
    assert forall k :: n - 1 < k < n + b ==> s[k] == s[n..][k - n];
    assert CutsToken(s, n - 1, n + b);
  }

  /** A number that is followed by no unit, in a text that is covered once its blanks are gone. */
  lemma CutNumber(digits: string, fraction: string, blanks: string, rest: string)
    requires IsNumber(digits, fraction) && EndsNumber(fraction, blanks + rest)
    requires forall i :: 0 <= i < |blanks| ==> IsSpace(blanks[i])
    requires rest != [] ==> !IsLetter(rest[0]) && !IsSpace(rest[0])
    requires MatchHead(digits + fraction + Compact(rest)).Some?
    ensures !TokensAreWhole(digits + fraction + blanks + rest)
  {
    hide MatchHead, IsLetter, IsSpace;
    NumberHasNoBlank(digits, fraction);
    if rest == [] {
      NoHead(digits, fraction, []);
      assert false;
    } else if blanks != [] {
      CutAtBlanks(digits + fraction, blanks, rest);
    } else {
      assert digits + fraction + blanks == digits + fraction && blanks + rest == rest;
      CutAtPoint(digits, fraction, rest);
    }
  }

  lemma CutAtBlanks(front: string, blanks: string, rest: string)
    requires front != [] && !IsSpace(front[|front| - 1]) && !IsLetter(front[|front| - 1])
    requires blanks != [] && forall i :: 0 <= i < |blanks| ==> IsSpace(blanks[i])
    requires rest != [] && !IsLetter(rest[0]) && !IsSpace(rest[0])
    ensures !TokensAreWhole(front + blanks + rest)
  {
    hide IsLetter, IsSpace;
    var s, n := front + blanks + rest, |front|;
    assert s[n - 1] == front[n - 1] && s[n + |blanks|] == rest[0];
    assert forall k :: n - 1 < k < n + |blanks| ==> s[k] == blanks[k - n];
    assert CutsToken(s, n - 1, n + |blanks|);
  }

  lemma CutAtPoint(digits: string, fraction: string, rest: string)
    requires IsNumber(digits, fraction) && EndsNumber(fraction, rest)
    requires rest != [] && !IsLetter(rest[0]) && !IsSpace(rest[0])
    requires MatchHead(digits + fraction + Compact(rest)).Some?
    ensures !TokensAreWhole(digits + fraction + rest)
  {
    hide MatchHead, IsLetter, IsSpace, IsDigit, AllDigits, TokensAreWhole;
    var more := Compact(rest);
    assert more == [rest[0]] + Compact(rest[1..]);
    if EndsNumber(fraction, more) {
      NoHead(digits, fraction, more);
      assert false;
    }
    SpacesFacts(rest[1..]);
    var b := SpacesLength(rest[1..]);
    assert rest[1..][b] == rest[b + 1] == more[1];
    KindsAreApart();
    PointCutsNumber(digits + fraction, rest, b);
  }

  lemma PointCutsNumber(front: string, rest: string, b: nat)
    requires 0 < b < |rest| - 1 && (forall k :: 0 <= k < b ==> IsSpace(rest[1..][k]))
    requires !IsLetter(rest[0]) && !IsSpace(rest[0]) && !IsLetter(rest[b + 1]) && !IsSpace(rest[b + 1])
    ensures !TokensAreWhole(front + rest)
  {
    hide IsLetter, IsSpace;
    var s, n := front + rest, |front|;
    assert s[n] == rest[0] && s[n + 1 + b] == rest[b + 1];
    assert forall k :: n < k < n + 1 + b ==> s[k] == rest[1..][k - n - 1];
    assert CutsToken(s, n, n + 1 + b);
  }

  // ---------------------------------------------------------------- the exact condition

  /** In a text that is all segments once its blanks are gone, the scan covers everything exactly when no blank
      cuts a number or a unit. */
  lemma {:induction false} ScannedIffWhole(s: string)
    requires Leftover(Compact(s)) == []
    ensures AllScanned(s) <==> TokensAreWhole(s)
    decreases |s|
  {
    if s == [] {
    } else if IsSpace(s[0]) {
      BlankSkipped(s);
      BlankIsNoCut(s);
      ScannedIffWhole(s[1..]);
    } else {
      assert Compact(s)[0] == s[0];
      assert MatchHead(Compact(s)).Some?;
      assert IsDigit(s[0]) by {
        assert DigitsLength(Compact(s)) > 0;
      }
      var digits, fraction, blanks, unit, rest := HeadParts(s);
      NumberHasNoBlank(digits, fraction);
      LettersAreNoBlanks(unit);
      CompactOfHead(digits + fraction, blanks, unit, rest);
      if unit == [] {
        assert blanks + unit == blanks && [] + Compact(rest) == Compact(rest);
        CutNumber(digits, fraction, blanks, rest);
        assert digits + fraction + blanks + unit == digits + fraction + blanks;
        UnmatchedStays(s);
      } else {
        ScannedAfterHead(s, digits, fraction, blanks, unit, rest);
      }
    }
  }

  lemma ScannedAfterHead(s: string, digits: string, fraction: string, blanks: string, unit: string, rest: string)
    requires s == digits + fraction + blanks + unit + rest && IsNumber(digits, fraction) && unit != []
    requires (forall i :: 0 <= i < |blanks| ==> IsSpace(blanks[i])) && (forall i :: 0 <= i < |unit| ==> IsLetter(unit[i]))
    requires rest != [] ==> !IsLetter(rest[0])
    requires MatchHead(s).Some? && MatchHead(s).value.length == |digits| + |fraction| + |blanks| + |unit|
    requires Compact(s) == digits + fraction + (unit + Compact(rest)) && Leftover(Compact(s)) == []
    ensures AllScanned(s) <==> TokensAreWhole(s)
    decreases |s|, 0
  {
    hide MatchHead, IsLetter, IsSpace, TokensAreWhole, IsDigit;
    var n := |digits| + |fraction| + |blanks| + |unit|;
    assert s[n..] == rest;
    LeftoverAfterMatch(s, rest);
    HeadOfNumber(digits, fraction, unit, Compact(rest));
    SpacesFacts(rest);
    var more := LettersLength(Compact(rest));
    LettersFacts(Compact(rest));
    if more == 0 {
      assert Compact(s)[n - |blanks|..] == Compact(rest);
      LeftoverAfterMatch(Compact(s), Compact(rest));
      ScannedIffWhole(rest);
      NumberHasNoBlank(digits, fraction);
      WholeAfterHead(digits + fraction, blanks, unit, rest);
    } else {
      var b := SpacesLength(rest);
      assert b < |rest|;
      assert IsLetter(Compact(rest)[0]);
      assert b > 0;
      assert s[n - 1] == unit[|unit| - 1] && s[n + b] == rest[b];
      CutUnit(s, n);
    }
  }

  /** An accepted interval is read to the last character exactly when no blank cuts a number or a unit;
      otherwise what is cut off is dropped without a word. */
  lemma AcceptedIsReadIff(input: string)
    requires Parse(input).Ok?
    ensures AllScanned(Cleaned(input)) <==> TokensAreWhole(Cleaned(input))
  {
    hide Cleaned, Scan, Leftover, Compact, FactorOf, TokensAreWhole, AllScanned, IsBareNumber;
    ScanIsWell(Cleaned(input));
    ScannedIffWhole(Cleaned(input));
  }

  // ---------------------------------------------------------------- texts that are not read to the end

  /** "1 30s" is accepted, and its 1 is never looked at. */
  lemma LooseNumberIsDropped(k: nat, total: nat)
    requires 30 <= total <= 86_400
    ensures var text := Print(k) + [' '] + FormatSeconds(total);
            Parse(text) == Parse(FormatSeconds(total)) && Parse(text).Ok? && !AllScanned(Cleaned(text))
  {
    hide Parse, Cleaned, FormatSeconds, Print, AllScanned, IsDigit, IsSpace, IsLetter;
    var text, tail := Print(k) + [' '] + FormatSeconds(total), FormatSeconds(total);
    LooseNumberIsIgnored(k, total);
    ParseOfFormat(total);
    AcceptedIsReadIff(text);
    FormattedIsPlain(total);
    FormattedStartsWithADigit(total);
    FormattedEndsInALetter(total);
    LooseIsClean(Print(k), tail);
    DigitIsNoBlank(Print(k)[|Print(k)| - 1]);
    DigitIsNoBlank(tail[0]);
    SpaceIsBlank();
    assert text[|Print(k)| - 1] == Print(k)[|Print(k)| - 1] && text[|Print(k)|] == ' ' && text[|Print(k)| + 1] == tail[0];
    assert CutsToken(text, |Print(k)| - 1, |Print(k)| + 1);
  }

  lemma DigitIsNoBlank(c: char)
    requires IsDigit(c)
    ensures !IsSpace(c) && !IsLetter(c)
  {
  }

  lemma SpaceIsBlank()
    ensures IsSpace(' ') && !IsLetter(' ')
  {
  }

  lemma FormattedStartsWithADigit(total: nat)
    ensures FormatSeconds(total) != [] && IsDigit(FormatSeconds(total)[0])
  {
    hide Scan, Leftover;
    ScanFormatted(total / 3600, total % 3600 / 60, total % 60);
  }

  /** "5m s" is five minutes: with its blank taken out it would be in a unit nobody knows. */
  lemma CutUnitIsDropped(n: nat)
    requires 1 <= n <= 1440
    ensures var text := Print(n) + "m s";
            && Parse(text).Ok? && Parse(text).value.ms == Ms(n as real * 60_000.0)
            && !AllScanned(Cleaned(text))
  {
    hide Cleaned, Scan, Leftover, MatchHead, Print, AllScanned, Total, IsBareNumber, Compact, FactorOf, FormatHuman;
    var text, digits := Print(n) + "m s", Print(n);
    var m := Segment(digits, [], "m", |digits| + 1);
    CutUnitIsClean(digits);
    CutUnitScans(digits);
    assert WellScanned([m]);
    NotBare(text);
    PartTotal(n);
    ParseUnfolds(text, [m], Ms(n as real * 60_000.0));
    assert n as real * 60_000.0 >= 60_000.0 && n as real * 60_000.0 <= 86_400_000.0;
    AcceptedIsReadIff(text);
    assert CutsToken(text, |digits|, |digits| + 2);
  }

  lemma PartTotal(n: nat)
    ensures var ms := [Segment(Print(n), [], "m", |Print(n)| + 1)];
            WellScanned(ms) && Total(ms) == Some(Ms(n as real * 60_000.0))
  {
    hide Print;
    var m := Segment(Print(n), [], "m", |Print(n)| + 1);
    NoDigits();
    assert "m" == ['m'];
    PartIsWorth(n, 'm');
    EmptyTotal();
    TotalOfSnoc([], m, 0.0, PartMs(n, 'm'));
    assert [] + [m] == [m];
  }

  lemma CutUnitIsClean(digits: string)
    requires digits != [] && AllDigits(digits)
    ensures var s := digits + "m s"; Cleaned(s) == s && Compact(s) == digits + "ms"
  {
    hide Lower, TrimLeft, TrimRight, Compact, IsSpace;
    var s, front := digits + "m s", digits + "m";
    SpacesArePlainless();
    assert IsPlain('m') && IsPlain('s');
    assert s == front + " " + "s";
    TrimIdle(s);
    assert forall i :: 0 <= i < |s| ==> IsPlain(s[i]) || s[i] == ' ';
    LowerIdle(s);
    assert EVERY[0] == 'e' && s[0] == digits[0];
    SpaceIsBlank();
    BlanksVanish([' ']);
    NoBlanksCompact(front);
    NoBlanksCompact("s");
    NoBlanksCompact([]);
    CompactOfFour(front, [' '], "s", []);
    assert front + [' '] + "s" + [] == s;
  }

  lemma CutUnitScans(digits: string)
    requires digits != [] && AllDigits(digits)
    ensures Scan(digits + "m s") == [Segment(digits, [], "m", |digits| + 1)] && Leftover(digits + "ms") == []
  {
    hide IsDigit, Scan, Leftover, MatchHead;
    assert IsLetter('m') && IsLetter('s') && !IsLetter(' ');
    DigitsAndUnitMatch(digits, 'm', " s");
    assert digits + (['m'] + " s") == digits + "m s";
    assert (digits + "m s")[|digits| + 1..] == " s";
    ScanOfMatch(digits + "m s", " s");
    BlankAndLetter();
    HeadOfNumber(digits, [], "ms", []);
    assert digits + [] + ("ms" + []) == digits + "ms";
    assert (digits + "ms")[|digits| + 2..] == [];
    LeftoverAfterMatch(digits + "ms", []);
    EmptyScan();
  }

  lemma ScanOfMatch(s: string, rest: string)
    requires s != [] && MatchHead(s).Some? && s[MatchHead(s).value.length..] == rest
    ensures Scan(s) == [MatchHead(s).value] + Scan(rest)
  {
    hide MatchHead;
  }

  lemma BlankAndLetter()
    ensures Scan(" s") == []
  {
    SpaceIsBlank();
    assert " s"[1..] == "s" && "s"[1..] == [];
    assert MatchHead(" s").None? && MatchHead("s").None?;
    EmptyScan();
  }

  // ---------------------------------------------------------------- a text whose value is no number

  /** "1 constructor" is accepted, and what it stands for is no number. */
  lemma ConstructorIsAccepted(k: nat)
    ensures var r := Parse(Print(k) + [' '] + BUILT_IN_NAME); r.Ok? && r.value.ms.NotANumber?
  {
    hide Cleaned, Scan, Leftover, MatchHead, Print, Total, IsBareNumber, Compact, FactorOf, FormatHuman;
    var digits, text := Print(k), Print(k) + [' '] + BUILT_IN_NAME;
    var m := Segment(digits, [], BUILT_IN_NAME, |text|);
    BuiltInNameIsPlain();
    LooseIsClean(digits, BUILT_IN_NAME);
    ConstructorMatches(digits);
    ConstructorTotal(digits, |text|);
    NotBare(text);
    ParseUnfolds(text, [m], NotANumber);
  }

  lemma BuiltInNameIsPlain()
    ensures forall i :: 0 <= i < |BUILT_IN_NAME| ==> IsPlain(BUILT_IN_NAME[i]) && IsLetter(BUILT_IN_NAME[i])
    ensures |BUILT_IN_NAME| == 11
  {
  }

  lemma ConstructorMatches(digits: string)
    requires digits != [] && AllDigits(digits)
    ensures var text := digits + [' '] + BUILT_IN_NAME; Scan(text) == [Segment(digits, [], BUILT_IN_NAME, |text|)]
    ensures Leftover(digits + BUILT_IN_NAME) == []
  {
    hide IsDigit, IsSpace, IsLetter, Scan, Leftover, MatchHead;
    var text, tail := digits + [' '] + BUILT_IN_NAME, [' '] + BUILT_IN_NAME;
    BuiltInNameIsPlain();
    SpaceIsBlank();
    ConstructorHead(digits);
    assert text[|text|..] == [];
    ScanOfMatch(text, []);
    EmptyScan();
    HeadOfNumber(digits, [], BUILT_IN_NAME, []);
    assert digits + [] + (BUILT_IN_NAME + []) == digits + BUILT_IN_NAME;
    assert (digits + BUILT_IN_NAME)[|digits + BUILT_IN_NAME|..] == [];
    LeftoverAfterMatch(digits + BUILT_IN_NAME, []);
  }

  lemma ConstructorHead(digits: string)
    requires digits != [] && AllDigits(digits)
    ensures var text := digits + [' '] + BUILT_IN_NAME;
            MatchHead(text) == Some(Segment(digits, [], BUILT_IN_NAME, |text|))
  {
    var name := BUILT_IN_NAME;
    var text, tail := digits + [' '] + name, [' '] + name;
    BuiltInNameIsPlain();
    hide IsSpace, IsLetter, IsDigit, BUILT_IN_NAME;
    SpaceIsBlank();
    SpaceIsNoDigit();
    NumberLengths(digits, [], tail);
    assert digits + [] + tail == text;
    assert tail[1..] == name;
    LettersAreNoBlanks(name);
    assert SpacesLength(tail) == 1;
    LettersOfConcat(name, []);
    assert name + [] == name;
    var n := |digits|;
    assert text[n + 0..] == tail && text[n + 0 + 1..] == name;
    assert text[n + 0 + 1..n + 0 + 1 + |name|] == name;
    assert text[..n] == digits;
  }

  lemma SpaceIsNoDigit()
    ensures !IsDigit(' ')
  {
  }

  lemma ConstructorTotal(digits: string, length: nat)
    requires AllDigits(digits)
    ensures var ms := [Segment(digits, [], BUILT_IN_NAME, length)]; WellScanned(ms) && Total(ms) == Some(NotANumber)
  {
    var m := Segment(digits, [], BUILT_IN_NAME, length);
    NoDigits();
    BuiltInNameIsPlain();
    assert FactorOf(BUILT_IN_NAME) == Some(NotANumber);
    hide FactorOf, NumberOf, AllDigits, BUILT_IN_NAME;
    EmptyTotal();
    assert [m][..0] == [];
  }
}
