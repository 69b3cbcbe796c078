// The forms of the lines the toggle looks for, and when each edit happens.
module ToggleForms {
  import opened Common
  import opened AgentFileToggle

  /** A line end: none, a feed, or a return and a feed. */
  predicate IsEol(eol: string) {
    eol == "" || eol == "\n" || eol == "\r\n"
  }

  /** A line without its end. */
  predicate IsBare(text: string) {
    forall i :: 0 <= i < |text| ==> text[i] != '\n' && text[i] != '\r'
  }

  lemma BareOf(text: string, eol: string)
    requires IsBare(text) && IsEol(eol)
    ensures StripEol(text + eol) == text
  {
    var l := text + eol;
    if eol == "\r\n" {
      assert l[|l| - 2..] == "\r\n" && l[..|l| - 2] == text;
    } else if eol == "\n" {
      assert |text| > 0 ==> l[|l| - 2] == text[|text| - 1];
      assert |l| >= 2 ==> l[|l| - 2..][0] == l[|l| - 2];
      assert l[..|l| - 1] == text;
    } else {
      assert l == text;
      assert |l| >= 2 ==> l[|l| - 2..][0] == l[|l| - 2];
    }
  }

  lemma {:induction false} BlanksSkipped(blanks: string, rest: string)
    requires AllBlank(blanks) && (rest == [] || (rest[0] != ' ' && rest[0] != '\t'))
    ensures SkipBlanks(blanks + rest) == rest
  {
    if blanks == [] {
      assert blanks + rest == rest;
    } else {
      assert (blanks + rest)[1..] == blanks[1..] + rest;
      BlanksSkipped(blanks[1..], rest);
    }
  }

  lemma {:induction false} SkippedBlanks(s: string) returns (blanks: string)
    ensures s == blanks + SkipBlanks(s) && AllBlank(blanks)
  {
    if s != [] && (s[0] == ' ' || s[0] == '\t') {
      var more := SkippedBlanks(s[1..]);
      blanks := [s[0]] + more;
      assert s == [s[0]] + s[1..];
    } else {
      blanks := [];
    }
  }

  /** A fence is three hyphens and blanks, whatever the line end; nothing else is one. */
  lemma FenceIff(text: string, eol: string)
    requires IsBare(text) && IsEol(eol)
    ensures IsFence(text + eol) <==> exists blanks: string :: AllBlank(blanks) && text == "---" + blanks
  {
    BareOf(text, eol);
    if IsFence(text + eol) {
      assert text == "---" + text[3..];
    }
    if blanks: string :| AllBlank(blanks) && text == "---" + blanks {
      assert text[3..] == blanks;
    }
  }

  /** The line that disables an agent: the key at the very start, the word, and blanks after the colon and the word only. */
  lemma DisablingLineIff(text: string, eol: string)
    requires IsBare(text) && IsEol(eol)
    ensures IsEnabledFalse(text + eol) <==>
            exists before: string, after: string :: AllBlank(before) && AllBlank(after) && text == "enabled:" + before + "false" + after
  {
    hide StripEol, IsEnabledFalse;
    BareOf(text, eol);
    if IsEnabledFalse(text + eol) {
      var before, after := DisablingParts(text, text + eol);
    }
    if before: string, after: string :| AllBlank(before) && AllBlank(after) && text == "enabled:" + before + "false" + after {
      DisablingLine(text, text + eol, before, after);
    }
  }

  lemma DisablingParts(text: string, l: string) returns (before: string, after: string)
    requires StripEol(l) == text && IsEnabledFalse(l)
    ensures AllBlank(before) && AllBlank(after) && text == "enabled:" + before + "false" + after
  {
    hide StripEol;
    var v := SkipBlanks(text[8..]);
    before := SkippedBlanks(text[8..]);
    after := v[5..];
    assert text == "enabled:" + text[8..] && v == "false" + after;
    assert text == "enabled:" + (before + ("false" + after));
  }

  lemma DisablingLine(text: string, l: string, before: string, after: string)
    requires StripEol(l) == text && AllBlank(before) && AllBlank(after) && text == "enabled:" + before + "false" + after
    ensures IsEnabledFalse(l)
  {
    hide StripEol;
    assert text[8..] == before + ("false" + after) && text[..8] == "enabled:";
    BlanksSkipped(before, "false" + after);
    assert ("false" + after)[5..] == after && ("false" + after)[..5] == "false";
  }

  /** The line that is added ends as the first line of the file ends. */
  lemma AddedLineIs(lines: seq<string>)
    requires lines != []
    ensures NewLine(lines) == if |lines[0]| >= 2 && lines[0][|lines[0]| - 2..] == "\r\n" then "enabled: false\r\n" else "enabled: false\n"
  {
  }

  /** A file has a block exactly when its first line, past a byte order mark, is a fence and another fence follows; the
      block ends at the first one that does. */
  lemma BlockIff(lines: seq<string>, close: nat)
    requires lines != []
    ensures Block(lines) == Some(close) <==>
              && IsFence(if lines[0] != [] && lines[0][0] == '\U{FEFF}' then lines[0][1..] else lines[0])
              && 1 <= close < |lines| && IsFence(lines[close]) && forall j :: 1 <= j < close ==> !IsFence(lines[j])
  {
    hide IsFence;
    if 1 <= close < |lines| && IsFence(lines[close]) && forall j :: 1 <= j < close ==> !IsFence(lines[j]) {
      ClosingFenceIs(lines, 1, close);
    }
  }

  /** When each edit is made: disabling needs a block and a loader that does not see the file as disabled; enabling needs a
      block with a disabling line. An edit that is not made leaves the text as it is. */
  lemma EditsAreMadeIff(isDisabled: string -> bool, content: string)
    ensures var (text, outcome) := DisableInContent(isDisabled, content);
            && (outcome == NoFrontmatter <==> Block(Lines(content)).None?)
            && (outcome == AlreadyDisabled <==> Block(Lines(content)).Some? && isDisabled(content))
            && (outcome != Disabled ==> text == content)
    ensures var (text, changed) := EnableInContent(content);
            && (changed <==> Block(Lines(content)).Some? && exists k :: 1 <= k < Block(Lines(content)).value && IsEnabledFalse(Lines(content)[k]))
            && (!changed ==> text == content)
  {
    hide IsFence, IsEnabledFalse, Kept, Lines, ClosingFence;
    var lines := Lines(content);
    if Block(lines).Some? {
      KeptFacts(lines, 1, Block(lines).value);
    }
  }
}
