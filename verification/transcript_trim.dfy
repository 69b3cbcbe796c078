// Cutting a transcript to its last bytes: UTF-8 cut anywhere, decoded again, one replacement character dropped.
module TranscriptTrim {
  import opened Common

  const MAX_DEFERRED_TRANSCRIPT_BYTES := 8192
  const REPLACEMENT := '\U{FFFD}'

  /** A byte of UTF-8 text: the lead byte of a character, which fixes how many follow, or one that follows. */
  datatype Octet = Lead(c: char) | Continuation

  function Width(c: char): (w: nat)
    ensures 1 <= w <= 4
  {
    var point := c as int;
    if point < 0x80 then 1 else if point < 0x800 then 2 else if point < 0x1_0000 then 3 else 4
  }

  function Continuations(n: nat): (r: seq<Octet>)
    ensures |r| == n && forall i :: 0 <= i < n ==> r[i] == Continuation
  {
    seq(n, i => Continuation)
  }

  function EncodeChar(c: char): seq<Octet> {
    [Lead(c)] + Continuations(Width(c) - 1)
  }

  function Encode(text: string): seq<Octet> {
    if text == [] then [] else EncodeChar(text[0]) + Encode(text[1..])
  }

  /** A decoder that never fails: an octet that belongs to no whole character reads as U+FFFD. */
  function Decode(octets: seq<Octet>): string {
    if octets == [] then []
    else if octets[0].Lead? && Width(octets[0].c) <= |octets| && EncodeChar(octets[0].c) == octets[..Width(octets[0].c)] then
      [octets[0].c] + Decode(octets[Width(octets[0].c)..])
    else [REPLACEMENT] + Decode(octets[1..])
  }

  function StripReplacement(text: string): string {
    if text != [] && text[0] == REPLACEMENT then text[1..] else text
  }

  /** The last `max` bytes of a text, as text; whether anything was cut. */
  function TrimEnd(text: string, max: nat): (string, bool) {
    var octets := Encode(text);
    if |octets| <= max then (text, false)
    else (StripReplacement(Decode(octets[|octets| - max..])), true)
  }

  /** How many values a UTF-8 sequence of this length holds: a lead byte's free bits, and six in each byte that follows. */
  function ValuesOfLength(w: nat): nat
    requires 1 <= w <= 4
  {
    if w == 1 then Power(2, 7) else Power(2, 7 - w) * Power(64, w - 1)
  }

  function Power(base: nat, n: nat): nat {
    if n == 0 then 1 else base * Power(base, n - 1)
  }

  /** A character takes the shortest sequence that holds its code point (section 3 of RFC 3629). */
  lemma WidthIsShortest(c: char, w: nat)
    requires 1 <= w <= 4
    ensures Width(c) <= w <==> c as int < ValuesOfLength(w)
  {
    assert Power(2, 4) == 16;
    assert Power(2, 7) == 8 * Power(2, 4);
    assert Power(64, 1) == 64 && Power(64, 2) == 64 * 64 && Power(64, 3) == 64 * 64 * 64;
    assert Power(2, 5) == 32 && Power(2, 3) == 8;
    assert ValuesOfLength(1) == 0x80 && ValuesOfLength(2) == 0x800 && ValuesOfLength(3) == 0x1_0000 && ValuesOfLength(4) == 0x20_0000;
  }

  /** A cut is reported exactly when the text is too long, and only then is anything changed. */
  lemma CutIsReportedIff(text: string, max: nat)
    ensures TrimEnd(text, max).1 <==> |Encode(text)| > max
    ensures |Encode(text)| <= max ==> TrimEnd(text, max).0 == text
  {
  }

  // ---------------------------------------------------------------- decoding a cut encoding

  lemma {:induction false} DecodeChar(c: char, rest: seq<Octet>)
    ensures Decode(EncodeChar(c) + rest) == [c] + Decode(rest)
  {
    var all := EncodeChar(c) + rest;
    assert all[..Width(c)] == EncodeChar(c);
    assert all[Width(c)..] == rest;
  }

  lemma {:induction false} DecodeEncode(text: string)
    ensures Decode(Encode(text)) == text
  {
    if text != [] {
      DecodeEncode(text[1..]);
      DecodeChar(text[0], Encode(text[1..]));
    }
  }

  function Replacements(n: nat): (r: string)
    ensures |r| == n && forall i :: 0 <= i < n ==> r[i] == REPLACEMENT
  {
    seq(n, i => REPLACEMENT)
  }

  lemma {:induction false} DecodeOrphans(n: nat, rest: seq<Octet>)
    ensures Decode(Continuations(n) + rest) == Replacements(n) + Decode(rest)
  {
    var all := Continuations(n) + rest;
    if n == 0 {
      assert all == rest;
    } else {
      assert all[1..] == Continuations(n - 1) + rest;
      DecodeOrphans(n - 1, rest);
      assert Replacements(n) == [REPLACEMENT] + Replacements(n - 1);
    }
  }

  /** Dropping `n` bytes: how many bytes of a split character stay, and the whole characters after it. */
  function Cut(text: string, n: nat): (r: (nat, string))
    requires n <= |Encode(text)|
    ensures r.0 <= 3
    ensures |Encode(text)| - n == r.0 + |Encode(r.1)|
  {
    if n == 0 then (0, text)
    else if Width(text[0]) <= n then Cut(text[1..], n - Width(text[0]))
    else (Width(text[0]) - n, text[1..])
  }

  lemma {:induction false} CutIsSuffix(text: string, n: nat)
    requires n <= |Encode(text)|
    ensures Encode(text)[n..] == Continuations(Cut(text, n).0) + Encode(Cut(text, n).1)
  {
    if n == 0 {
    } else if Width(text[0]) <= n {
      CutIsSuffix(text[1..], n - Width(text[0]));
      assert Encode(text)[n..] == Encode(text[1..])[n - Width(text[0])..];
    } else {
      assert EncodeChar(text[0])[n..] == Continuations(Width(text[0]) - n);
      assert Encode(text)[n..] == EncodeChar(text[0])[n..] + Encode(text[1..]);
    }
  }

  /** What the decoder makes of the last bytes: one replacement for each byte of the split character. */
  lemma DecodeCut(text: string, n: nat)
    requires n <= |Encode(text)|
    ensures Decode(Encode(text)[n..]) == Replacements(Cut(text, n).0) + Cut(text, n).1
  {
    CutIsSuffix(text, n);
    DecodeOrphans(Cut(text, n).0, Encode(Cut(text, n).1));
    DecodeEncode(Cut(text, n).1);
  }

  // ---------------------------------------------------------------- how long, and how stable, the result is

  /** Bytes of a character that the cut splits, when a text is too long. */
  function Orphans(text: string, max: nat): nat {
    if |Encode(text)| <= max then 0 else Cut(text, |Encode(text)| - max).0
  }

  lemma {:induction false} EncodeReplacements(n: nat, text: string)
    ensures |Encode(Replacements(n) + text)| == 3 * n + |Encode(text)|
  {
    var all := Replacements(n) + text;
    if n == 0 {
      assert all == text;
    } else {
      assert all[1..] == Replacements(n - 1) + text;
      EncodeReplacements(n - 1, text);
    }
  }

  lemma TrimShape(text: string, max: nat)
    requires |Encode(text)| > max
    ensures var (k, rest) := Cut(text, |Encode(text)| - max);
            && |Encode(rest)| == max - k
            && (k > 0 ==> TrimEnd(text, max).0 == Replacements(k - 1) + rest)
            && (k == 0 ==> TrimEnd(text, max).0 == StripReplacement(rest))
  {
    var n := |Encode(text)| - max;
    var (k, rest) := Cut(text, n);
    DecodeCut(text, n);
    if k > 0 {
      assert (Replacements(k) + rest)[1..] == Replacements(k - 1) + rest;
    } else {
      assert Replacements(0) + rest == rest;
    }
  }

  lemma StripShortens(text: string)
    ensures |Encode(StripReplacement(text))| <= |Encode(text)|
  {
  }

  /** The result fits the limit exactly when the cut leaves at most one byte of a split character;
      two left-over bytes overrun it by one byte, three by three. */
  lemma TrimFitsIff(text: string, max: nat)
    ensures |Encode(TrimEnd(text, max).0)| <= max <==> Orphans(text, max) <= 1
    ensures |Encode(TrimEnd(text, max).0)| <= max + 3
  {
    hide Encode, TrimEnd, Cut, StripReplacement, Replacements;
    if |Encode(text)| <= max {
      TrimFitted(text, max);
    } else {
      TrimShape(text, max);
      var (k, rest) := Cut(text, |Encode(text)| - max);
      StripShortens(rest);
      if k > 0 {
        EncodeReplacements(k - 1, rest);
      }
    }
  }

  lemma TrimFitted(text: string, max: nat)
    requires |Encode(text)| <= max
    ensures TrimEnd(text, max) == (text, false)
  {
  }

  lemma TrimTwoOrphans(rest: string, max: nat)
    requires |Encode(rest)| == max - 2
    ensures TrimEnd(Replacements(1) + rest, max).0 == Replacements(1) + rest
  {
    var text := Replacements(1) + rest;
    EncodeReplacements(1, rest);
    assert text[0] == REPLACEMENT && text[1..] == rest;
    assert Cut(text, 1) == (2, rest);
    TrimShape(text, max);
  }

  lemma TrimThreeOrphans(rest: string, max: nat)
    requires |Encode(rest)| == max - 3
    ensures TrimEnd(Replacements(2) + rest, max).0 == rest
  {
    var text := Replacements(2) + rest;
    EncodeReplacements(2, rest);
    assert text[0] == REPLACEMENT && text[1..] == Replacements(1) + rest;
    EncodeReplacements(1, rest);
    assert Cut(text, 3) == (0, Replacements(1) + rest);
    TrimShape(text, max);
    assert StripReplacement(Replacements(1) + rest) == rest;
  }

  /** Trimming twice is trimming once, except exactly when the cut leaves three bytes of a four-byte character. */
  lemma TrimIdempotentIff(text: string, max: nat)
    ensures TrimEnd(TrimEnd(text, max).0, max).0 == TrimEnd(text, max).0 <==> Orphans(text, max) != 3
  {
    hide Encode, TrimEnd, Cut, StripReplacement;
    TrimFitsIff(text, max);
    if Orphans(text, max) <= 1 {
      TrimFitted(TrimEnd(text, max).0, max);
    } else {
      TrimShape(text, max);
      var (k, rest) := Cut(text, |Encode(text)| - max);
      if k == 2 {
        TrimTwoOrphans(rest, max);
      } else {
        TrimThreeOrphans(rest, max);
        assert |Replacements(2) + rest| == |rest| + 2;
      }
    }
  }

  lemma {:induction false} PlainLength(n: nat)
    ensures |Encode(Repeat('a', n))| == n
  {
    if n > 0 {
      assert Repeat('a', n)[1..] == Repeat('a', n - 1);
      PlainLength(n - 1);
    }
  }

  /** A character of four bytes, and letters that fill the limit up to its last three. */
  function CutInFour(max: nat): string
    requires max >= 3
  {
    ['\U{1F600}'] + Repeat('a', max - 3)
  }

  /** Such a text is cut badly, and trimming it twice is not trimming it once. */
  lemma TrimmedTwiceDiffers(max: nat)
    requires max >= 3
    ensures Orphans(CutInFour(max), max) == 3
    ensures TrimEnd(TrimEnd(CutInFour(max), max).0, max).0 != TrimEnd(CutInFour(max), max).0
  {
    var text := CutInFour(max);
    PlainLength(max - 3);
    assert text[1..] == Repeat('a', max - 3);
    assert |Encode(text)| == max + 1;
    assert Cut(text, 1) == (3, text[1..]);
    TrimIdempotentIff(text, max);
  }
}
