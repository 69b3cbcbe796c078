// Enabling and disabling an agent file by editing one line of its front matter.
module AgentFileToggle {
  import opened Common

  const BOM := '\U{FEFF}'

  datatype DisableOutcome = Disabled | AlreadyDisabled | NoFrontmatter

  // ---------------------------------------------------------------- lines that keep their terminators

  /** Length of the first line, its line feed included. */
  function FirstLineLength(s: string): (n: nat)
    ensures n <= |s| && (s != [] ==> n > 0)
    ensures forall i :: 0 <= i < n - 1 ==> s[i] != '\n'
    ensures n < |s| ==> s[n - 1] == '\n'
  {
    if s == [] then 0 else if s[0] == '\n' then 1 else 1 + FirstLineLength(s[1..])
  }

  /** Split after every line feed; a text without any is one line. */
  function Lines(s: string): (r: seq<string>)
    ensures r != []
    decreases |s|
  {
    var n := FirstLineLength(s);
    if n == |s| then [s] else [s[..n]] + Lines(s[n..])
  }

  function Concat(lines: seq<string>): string {
    if lines == [] then [] else lines[0] + Concat(lines[1..])
  }

  /** No line feed but the last character. */
  ghost predicate IsLine(l: string) {
    l != [] && forall i :: 0 <= i < |l| - 1 ==> l[i] != '\n'
  }

  ghost predicate EndsWithFeed(l: string) {
    l != [] && l[|l| - 1] == '\n'
  }

  /** What splitting yields: lines, all but the last terminated. */
  ghost predicate AreLines(lines: seq<string>) {
    && lines != []
    && (forall i :: 0 <= i < |lines| ==> IsLine(lines[i]))
    && (forall i :: 0 <= i < |lines| - 1 ==> EndsWithFeed(lines[i]))
  }

  lemma {:induction false} ConcatOfLines(s: string)
    ensures Concat(Lines(s)) == s
    decreases |s|
  {
    var n := FirstLineLength(s);
    if n < |s| {
      ConcatOfLines(s[n..]);
      assert ([s[..n]] + Lines(s[n..]))[1..] == Lines(s[n..]);
    } else {
      assert [s][1..] == [];
    }
  }

  lemma {:induction false} LinesAreLines(s: string)
    requires s != []
    ensures AreLines(Lines(s))
    decreases |s|
  {
    var n := FirstLineLength(s);
    if n < |s| {
      LinesAreLines(s[n..]);
    }
  }

  lemma {:induction false} FirstLineOfConcat(l: string, rest: string)
    requires IsLine(l) && (EndsWithFeed(l) || rest == [])
    ensures FirstLineLength(l + rest) == |l|
  {
    if |l| == 1 {
      assert rest == [] ==> (l + rest)[1..] == [];
    } else {
      assert (l + rest)[1..] == l[1..] + rest;
      assert (l + rest)[0] == l[0];
      FirstLineOfConcat(l[1..], rest);
    }
  }

  lemma {:induction false} LinesOfConcat(lines: seq<string>)
    requires AreLines(lines)
    ensures Lines(Concat(lines)) == lines
    decreases |lines|
  {
    var rest := Concat(lines[1..]);
    if |lines| == 1 {
      assert rest == [];
      FirstLineOfConcat(lines[0], rest);
      assert lines[0] + rest == lines[0];
    } else {
      assert AreLines(lines[1..]);
      LinesOfConcat(lines[1..]);
      ConcatNotEmpty(lines[1..]);
      FirstLineOfConcat(lines[0], rest);
      var s := lines[0] + rest;
      assert s[..|lines[0]|] == lines[0] && s[|lines[0]|..] == rest;
    }
  }

  lemma ConcatNotEmpty(lines: seq<string>)
    requires AreLines(lines)
    ensures Concat(lines) != []
  {
    assert IsLine(lines[0]);
  }

  lemma {:induction false} ConcatOfJoin(a: seq<string>, b: seq<string>)
    ensures Concat(a + b) == Concat(a) + Concat(b)
  {
    if a == [] {
      assert a + b == b;
    } else {
      assert (a + b)[1..] == a[1..] + b;
      ConcatOfJoin(a[1..], b);
    }
  }

  // ---------------------------------------------------------------- the block

  function StripEol(l: string): string {
    if |l| >= 2 && l[|l| - 2..] == "\r\n" then l[..|l| - 2]
    else if |l| >= 1 && l[|l| - 1] == '\n' then l[..|l| - 1]
    else l
  }

  predicate AllBlank(s: string) {
    forall i :: 0 <= i < |s| ==> s[i] == ' ' || s[i] == '\t'
  }

  function SkipBlanks(s: string): string {
    if s != [] && (s[0] == ' ' || s[0] == '\t') then SkipBlanks(s[1..]) else s
  }

  predicate IsFence(l: string) {
    var t := StripEol(l);
    "---" <= t && AllBlank(t[3..])
  }

  /** `enabled:`, blanks, `false`, blanks. */
  predicate IsEnabledFalse(l: string) {
    var t := StripEol(l);
    "enabled:" <= t &&
    var v := SkipBlanks(t[|"enabled:"|..]);
    "false" <= v && AllBlank(v[|"false"|..])
  }

  /** Index of the first fence after the first line; the number of lines when there is none. */
  function ClosingFence(lines: seq<string>, from: nat): (i: nat)
    requires from <= |lines|
    ensures from <= i <= |lines|
    ensures i < |lines| ==> IsFence(lines[i])
    ensures forall j :: from <= j < i ==> !IsFence(lines[j])
    decreases |lines| - from
  {
    if from == |lines| || IsFence(lines[from]) then from else ClosingFence(lines, from + 1)
  }

  /** The first line with a byte order mark put aside. */
  function WithoutBom(l: string): string {
    if l != [] && l[0] == BOM then l[1..] else l
  }

  /** The index of the closing fence, if the file starts with a block. */
  function Block(lines: seq<string>): Option<nat>
    requires lines != []
  {
    if !IsFence(WithoutBom(lines[0])) || ClosingFence(lines, 1) == |lines| then None else Some(ClosingFence(lines, 1))
  }

  function EolOf(l: string): string {
    if |l| >= 2 && l[|l| - 2..] == "\r\n" then "\r\n" else "\n"
  }

  function NewLine(lines: seq<string>): string
    requires lines != []
  {
    "enabled: false" + EolOf(lines[0])
  }

  // ---------------------------------------------------------------- the two edits

  /** `isDisabled` is what the loader's own parser says of a text. */
  function DisableInContent(isDisabled: string -> bool, content: string): (string, DisableOutcome) {
    var lines := Lines(content);
    if Block(lines).None? then (content, NoFrontmatter)
    else if isDisabled(content) then (content, AlreadyDisabled)
    else (Concat(lines[..1] + [NewLine(lines)] + lines[1..]), Disabled)
  }

  /** Lines `i` to `close`, without those that say `enabled: false`. */
  function Kept(lines: seq<string>, i: nat, close: nat): seq<string>
    requires i <= close <= |lines|
    decreases close - i
  {
    if i == close then []
    else if IsEnabledFalse(lines[i]) then Kept(lines, i + 1, close)
    else [lines[i]] + Kept(lines, i + 1, close)
  }

  function EnableInContent(content: string): (string, bool) {
    var lines := Lines(content);
    match Block(lines)
    case None => (content, false)
    case Some(close) =>
      var kept := Kept(lines, 1, close);
      if |kept| == close - 1 then (content, false) else (Concat(lines[..1] + kept + lines[close..]), true)
  }

  /** The splice on a copy of the lines. */
  method Disable(isDisabled: string -> bool, content: string) returns (result: string, outcome: DisableOutcome)
    ensures (result, outcome) == DisableInContent(isDisabled, content)
  {
    var lines := Lines(content);
    if Block(lines).None? {
      return content, NoFrontmatter;
    }
    if isDisabled(content) {
      return content, AlreadyDisabled;
    }
    var edited := lines[..1] + [NewLine(lines)] + lines[1..];
    return Concat(edited), Disabled;
  }

  // ---------------------------------------------------------------- what the edits leave alone

  lemma {:induction false} KeptFacts(lines: seq<string>, i: nat, close: nat)
    requires i <= close <= |lines|
    ensures |Kept(lines, i, close)| <= close - i
    ensures |Kept(lines, i, close)| == close - i <==> forall k :: i <= k < close ==> !IsEnabledFalse(lines[k])
    ensures |Kept(lines, i, close)| == close - i ==> Kept(lines, i, close) == lines[i..close]
    ensures forall l :: l in Kept(lines, i, close) <==> l in lines[i..close] && !IsEnabledFalse(l)
    decreases close - i
  {
    hide IsEnabledFalse;
    if i < close {
      KeptFacts(lines, i + 1, close);
      assert lines[i..close] == [lines[i]] + lines[i + 1..close];
    }
  }

  lemma {:induction false} ClosingFenceIs(lines: seq<string>, from: nat, i: nat)
    requires from <= i < |lines| && IsFence(lines[i]) && forall j :: from <= j < i ==> !IsFence(lines[j])
    ensures ClosingFence(lines, from) == i
    decreases |lines| - from
  {
    hide IsFence;
    if from < i {
      ClosingFenceIs(lines, from + 1, i);
    }
  }

  lemma BlockFacts(content: string)
    requires Block(Lines(content)).Some?
    ensures var lines := Lines(content); var close := Block(lines).value;
            && content != [] && AreLines(lines) && 1 <= close < |lines| && IsFence(lines[close])
            && (forall j :: 1 <= j < close ==> !IsFence(lines[j])) && EndsWithFeed(lines[0])
  {
    if content != [] {
      LinesAreLines(content);
    }
  }

  lemma NewLineFacts(lines: seq<string>)
    requires lines != []
    ensures IsLine(NewLine(lines)) && EndsWithFeed(NewLine(lines))
    ensures IsEnabledFalse(NewLine(lines)) && !IsFence(NewLine(lines))
  {
    var l := NewLine(lines);
    assert StripEol(l) == "enabled: false" by {
      if EolOf(lines[0]) == "\r\n" {
        assert l[|l| - 2..] == "\r\n";
        assert l[..|l| - 2] == "enabled: false";
      } else {
        assert l[|l| - 2] == 'e';
        assert l[..|l| - 1] == "enabled: false";
      }
    }
    assert "enabled: false"[|"enabled:"|..] == " false";
    assert " false"[1..] == "false";
    assert SkipBlanks(" false") == "false";
    assert "false"[|"false"|..] == [];
    assert "enabled: false"[0] != "---"[0];
  }

  lemma InsertedLines(lines: seq<string>, line: string, close: nat)
    requires AreLines(lines) && EndsWithFeed(lines[0]) && IsFence(WithoutBom(lines[0]))
    requires 1 <= close < |lines| && IsFence(lines[close]) && forall j :: 1 <= j < close ==> !IsFence(lines[j])
    requires IsLine(line) && EndsWithFeed(line) && !IsFence(line)
    ensures var edited := lines[..1] + [line] + lines[1..];
            AreLines(edited) && Block(edited) == Some(close + 1) && edited[close + 1..] == lines[close..]
  {
    hide IsFence, IsLine, EndsWithFeed, WithoutBom;
    var edited := lines[..1] + [line] + lines[1..];
    assert forall k :: 0 <= k < |edited| ==> edited[k] == if k == 0 then lines[0] else if k == 1 then line else lines[k - 1];
    ClosingFenceIs(edited, 1, close + 1);
  }

  /** Disabling adds one line after the first; the block stays a block and every other line stays as it was. */
  lemma DisableAddsOneLine(isDisabled: string -> bool, content: string)
    requires DisableInContent(isDisabled, content).1 == Disabled
    ensures var lines := Lines(content); var after := Lines(DisableInContent(isDisabled, content).0);
            && after == lines[..1] + [NewLine(lines)] + lines[1..]
            && Block(after) == Some(Block(lines).value + 1)
            && after[Block(lines).value + 1..] == lines[Block(lines).value..]
  {
    hide IsFence, IsEnabledFalse, NewLine, IsLine, EndsWithFeed, AreLines;
    var lines := Lines(content);
    BlockFacts(content);
    NewLineFacts(lines);
    InsertedLines(lines, NewLine(lines), Block(lines).value);
    LinesOfConcat(lines[..1] + [NewLine(lines)] + lines[1..]);
  }

  /** The lines of a file after enabling, whether or not something changed. */
  lemma EnableKeepsTheRest(content: string)
    requires Block(Lines(content)).Some?
    ensures var lines := Lines(content); var close := Block(lines).value;
            var kept := Kept(lines, 1, close);
            var after := Lines(EnableInContent(content).0);
            && after == lines[..1] + kept + lines[close..]
            && Block(after) == Some(1 + |kept|)
            && after[1 + |kept|..] == lines[close..] && after[0] == lines[0]
  {
    hide IsFence, IsEnabledFalse, IsLine, EndsWithFeed, Kept;
    var lines := Lines(content);
    var close := Block(lines).value;
    var kept := Kept(lines, 1, close);
    BlockFacts(content);
    KeptFacts(lines, 1, close);
    var edited := lines[..1] + kept + lines[close..];
    if |kept| == close - 1 {
      assert edited == lines;
    } else {
      KeptAreLines(lines, close);
      LinesOfConcat(edited);
    }
    KeptNoFence(lines, close);
    ClosingFenceIs(edited, 1, 1 + |kept|);
  }

  lemma KeptNoFence(lines: seq<string>, close: nat)
    requires 1 <= close < |lines| && forall j :: 1 <= j < close ==> !IsFence(lines[j])
    ensures var kept := Kept(lines, 1, close); var edited := lines[..1] + kept + lines[close..];
            && (forall j :: 1 <= j < 1 + |kept| ==> !IsFence(edited[j])) && edited[1 + |kept|] == lines[close]
  {
    hide IsFence, IsEnabledFalse, Kept;
    KeptFacts(lines, 1, close);
    var kept := Kept(lines, 1, close);
    forall j | 0 <= j < |kept|
      ensures !IsFence(kept[j])
    {
      assert kept[j] in lines[1..close];
    }
  }

  lemma KeptAreLines(lines: seq<string>, close: nat)
    requires AreLines(lines) && 1 <= close < |lines|
    ensures AreLines(lines[..1] + Kept(lines, 1, close) + lines[close..])
  {
    hide IsEnabledFalse, Kept, IsLine, EndsWithFeed;
    KeptFacts(lines, 1, close);
    var kept := Kept(lines, 1, close);
    forall j | 0 <= j < |kept|
      ensures IsLine(kept[j]) && EndsWithFeed(kept[j])
    {
      assert kept[j] in lines[1..close];
    }
  }

  // ---------------------------------------------------------------- undoing

  /** No line of the block says `enabled: false` yet. */
  ghost predicate BlockIsSilent(content: string) {
    var lines := Lines(content);
    Block(lines).Some? && forall k :: 1 <= k < Block(lines).value ==> !IsEnabledFalse(lines[k])
  }

  lemma KeptAfterInsert(lines: seq<string>, line: string, close: nat)
    requires 1 <= close < |lines| && IsEnabledFalse(line)
    ensures Kept(lines[..1] + [line] + lines[1..], 1, close + 1) == Kept(lines, 1, close)
  {
    hide IsEnabledFalse;
    var edited := lines[..1] + [line] + lines[1..];
    assert edited[1] == line;
    assert Kept(edited, 1, close + 1) == Kept(edited, 2, close + 1);
    KeptShifted(lines, edited, 1, close);
  }

  lemma {:induction false} KeptShifted(lines: seq<string>, edited: seq<string>, i: nat, close: nat)
    requires i <= close <= |lines| && |edited| == |lines| + 1
    requires forall k :: i <= k < close ==> edited[k + 1] == lines[k]
    ensures Kept(edited, i + 1, close + 1) == Kept(lines, i, close)
    decreases close - i
  {
    hide IsEnabledFalse;
    if i < close {
      assert edited[i + 1] == lines[i];
      KeptShifted(lines, edited, i + 1, close);
    }
  }

  /** Disabling and then enabling restores the text character for character exactly when the block had no
      `enabled: false` line of its own; line ends and a byte order mark make no difference. */
  lemma EnableUndoesDisableIff(isDisabled: string -> bool, content: string)
    requires DisableInContent(isDisabled, content).1 == Disabled
    ensures var (again, changed) := EnableInContent(DisableInContent(isDisabled, content).0);
            changed && (again == content <==> BlockIsSilent(content))
  {
    hide IsFence, IsEnabledFalse, NewLine, Kept, Lines, Concat;
    var lines := Lines(content);
    var close := Block(lines).value;
    var disabled := DisableInContent(isDisabled, content).0;
    var edited := lines[..1] + [NewLine(lines)] + lines[1..];
    BlockFacts(content);
    DisableAddsOneLine(isDisabled, content);
    NewLineFacts(lines);
    KeptAfterInsert(lines, NewLine(lines), close);
    KeptFacts(lines, 1, close);
    var kept := Kept(lines, 1, close);
    var restored := lines[..1] + kept + lines[close..];
    assert edited[..1] == lines[..1] && edited[close + 1..] == lines[close..];
    assert EnableInContent(disabled) == (Concat(restored), true);
    if BlockIsSilent(content) {
      assert restored == lines;
      ConcatOfLines(content);
    } else {
      KeptAreLines(lines, close);
      LinesOfConcat(restored);
      assert |restored| < |lines|;
    }
  }

  /** After enabling, nothing is left to enable. */
  lemma EnableTwiceIsOnce(content: string)
    ensures EnableInContent(EnableInContent(content).0) == (EnableInContent(content).0, false)
  {
    hide IsFence, IsEnabledFalse, Kept, Lines, Concat;
    var lines := Lines(content);
    if Block(lines).Some? {
      var close := Block(lines).value;
      var kept := Kept(lines, 1, close);
      BlockFacts(content);
      EnableKeepsTheRest(content);
      KeptFacts(lines, 1, close);
      var after := Lines(EnableInContent(content).0);
      forall k | 1 <= k < 1 + |kept|
        ensures !IsEnabledFalse(after[k])
      {
        assert after[k] == kept[k - 1];
        assert kept[k - 1] in kept;
      }
      KeptFacts(after, 1, 1 + |kept|);
    }
  }
}
