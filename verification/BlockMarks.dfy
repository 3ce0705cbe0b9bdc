/** The lines that the parser of docs/_extensions/collapsible_code_block.py recognises, in
    terms of their characters. */
module BlockMarks {
  import opened Outcomes
  import opened Text
  import opened BlockParser

  // ---------- white space ----------

  predicate AllSpace(s: string) {
    forall i | 0 <= i < |s| :: IsSpace(s[i])
  }

  predicate StartsSolid(s: string) {
    s == [] || !IsSpace(s[0])
  }

  lemma {:induction false} SkipsExactly(w: string, s: string)
    requires AllSpace(w) && StartsSolid(s)
    ensures SkipSpace(w + s) == s
  {
    if w == [] {
      assert w + s == s;
    } else {
      SkipsExactly(w[1..], s);
      assert (w + s)[1..] == w[1..] + s;
    }
  }

  lemma {:induction false} SkippedPart(s: string) returns (w: string)
    ensures s == w + SkipSpace(s) && AllSpace(w) && StartsSolid(SkipSpace(s))
  {
    if s != [] && IsSpace(s[0]) {
      var v := SkippedPart(s[1..]);
      w := [s[0]] + v;
    } else {
      w := [];
    }
  }

  lemma BlankExactly(s: string)
    ensures Blank(s) <==> AllSpace(s)
  {
    var w := SkippedPart(s);
    if AllSpace(s) { SkipsExactly(s, []); assert s + [] == s; }
    if Blank(s) { assert s == w; }
  }

  /** What is in front of a line's text, and the text. */
  ghost predicate Starts(line: string, lead: string, text: string) {
    line == lead + text && AllSpace(lead) && text != [] && StartsSolid(text)
  }

  /** A line is content of a block with indent `n` exactly when there is text after more than
      `n` characters of white space. */
  lemma DeeperExactly(line: string, n: nat)
    ensures Deeper(line, n) <==> exists lead, text :: Starts(line, lead, text) && |lead| > n
  {
    var w := SkippedPart(line);
    if Deeper(line, n) { assert Starts(line, w, SkipSpace(line)); }
    forall lead, text | Starts(line, lead, text) && |lead| > n ensures Deeper(line, n) { SkipsExactly(lead, text); }
  }

  lemma {:induction false} DropsExactly(s: string, w: string)
    requires AllSpace(w) && (s == [] || !IsSpace(s[|s| - 1]))
    ensures DropSpace(s + w) == s
  {
    if w == [] {
      assert s + w == s;
    } else {
      var k := |w| - 1;
      DropsExactly(s, w[..k]);
      assert (s + w)[..|s| + k] == s + w[..k];
    }
  }

  lemma StripExactly(lead: string, core: string, trail: string)
    requires AllSpace(lead) && AllSpace(trail) && core != [] && !IsSpace(core[0]) && !IsSpace(core[|core| - 1])
    ensures Strip(lead + (core + trail)) == core
  {
    assert (core + trail)[0] == core[0];
    SkipsExactly(lead, core + trail);
    DropsExactly(core, trail);
  }

  /** A header goes on over blank lines and over those whose text starts with a colon. */
  lemma HeaderExactly(line: string)
    ensures BelongsToHeader(line) <==> AllSpace(line) || exists lead, text :: Starts(line, lead, text) && text[0] == ':'
  {
    BlankExactly(line);
    BlankAfterStrip(line);
    var w := SkippedPart(line);
    var rest := SkipSpace(line);
    if rest != [] {
      DropKeepsStart(rest);
      assert Starts(line, w, rest);
    }
    forall lead, text | Starts(line, lead, text) && text[0] == ':' ensures BelongsToHeader(line) { SkipsExactly(lead, text); }
  }

  // ---------- directives ----------

  /** Indentation, two dots, white space, the name of the directive, and its tail. */
  ghost predicate IsDirective(line: string, indent: nat, tail: string) {
    exists lead, gap: string ::
      line == lead + (".." + (gap + ("collapsible::" + tail))) && AllSpace(lead) && |lead| == indent && AllSpace(gap) && gap != []
  }

  lemma DirectiveRead(line: string, lead: string, gap: string, tail: string)
    requires line == lead + (".." + (gap + ("collapsible::" + tail))) && AllSpace(lead) && AllSpace(gap) && gap != []
    ensures Directive(line) == Some(Mark(|lead|, Strip(tail)))
  {
    var name := "collapsible::" + tail;
    var marker := ".." + (gap + name);
    assert marker[0] == '.' && name[0] == 'c';
    SkipsExactly(lead, marker);
    assert marker[..2] == ".." && marker[2..] == gap + name;
    SkipsExactly(gap, name);
    assert name[..|"collapsible::"|] == "collapsible::" && name[|"collapsible::"|..] == tail;
  }

  lemma DirectiveFound(line: string) returns (tail: string)
    requires Directive(line).Some?
    ensures IsDirective(line, Directive(line).value.indent, tail) && Directive(line).value.labelText == Strip(tail)
  {
    var lead := SkippedPart(line);
    var marker := SkipSpace(line);
    var gap := SkippedPart(marker[2..]);
    var name := SkipSpace(marker[2..]);
    tail := name[|"collapsible::"|..];
    assert name == "collapsible::" + tail && marker == ".." + marker[2..];
  }

  /** A line is a directive exactly when it has that form, and its indent and label are
      those of the form. */
  lemma DirectiveExactly(line: string, mark: Mark)
    ensures Directive(line) == Some(mark) <==> exists tail :: IsDirective(line, mark.indent, tail) && mark.labelText == Strip(tail)
  {
    if Directive(line) == Some(mark) { var tail := DirectiveFound(line); }
    forall tail | IsDirective(line, mark.indent, tail) ensures Directive(line) == Some(Mark(mark.indent, Strip(tail))) {
      var lead, gap: string :|
        line == lead + (".." + (gap + ("collapsible::" + tail))) && AllSpace(lead) && |lead| == mark.indent && AllSpace(gap) && gap != [];
      DirectiveRead(line, lead, gap, tail);
    }
  }

  // ---------- options ----------

  predicate NoDigitFirst(s: string) {
    s == [] || !('0' <= s[0] <= '9')
  }

  /** An option `:indent:` with a number, whatever follows it. */
  ghost predicate IsIndent(option: string, n: nat) {
    exists gap, digits, after: string ::
      && option == ":indent:" + (gap + (digits + after)) && AllSpace(gap)
      && IsDigits(digits) && NoDigitFirst(after) && Number(digits) == n
  }

  lemma {:induction false} DigitsLead(digits: string, after: string)
    requires AllDigits(digits) && NoDigitFirst(after)
    ensures LeadingDigits(digits + after) == digits
  {
    if digits == [] {
      assert digits + after == after;
    } else {
      DigitsLead(digits[1..], after);
      assert (digits + after)[1..] == digits[1..] + after;
    }
  }

  lemma {:induction false} LeadingPart(s: string) returns (after: string)
    ensures s == LeadingDigits(s) + after && NoDigitFirst(after)
  {
    if s != [] && '0' <= s[0] <= '9' {
      after := LeadingPart(s[1..]);
    } else {
      after := s;
    }
  }

  lemma IndentRead(settings: Settings, gap: string, digits: string, after: string)
    requires AllSpace(gap) && IsDigits(digits) && NoDigitFirst(after)
    ensures WithOption(settings, ":indent:" + (gap + (digits + after))) == settings.(indent := Number(digits))
  {
    var option := ":indent:" + (gap + (digits + after));
    assert option[1] == 'i' && ":open:"[1] == 'o';
    assert option[..|":indent:"|] == ":indent:" && option[|":indent:"|..] == gap + (digits + after);
    assert digits[0] == (digits + after)[0];
    SkipsExactly(gap, digits + after);
    DigitsLead(digits, after);
  }

  lemma IndentFound(settings: Settings, option: string)
    requires WithOption(settings, option) != settings.(open := option == ":open:" || settings.open)
    ensures exists n :: IsIndent(option, n)
  {
    var tail := option[|":indent:"|..];
    var gap := SkippedPart(tail);
    var after := LeadingPart(SkipSpace(tail));
    var digits := LeadingDigits(SkipSpace(tail));
    assert option == ":indent:" + (gap + (digits + after));
    assert IsIndent(option, Number(digits));
  }

  /** `:open:` opens, `:indent:` with a number sets it, and nothing else has an effect. */
  lemma OptionExactly(settings: Settings, option: string)
    ensures WithOption(settings, option).open <==> settings.open || option == ":open:"
    ensures forall n :: IsIndent(option, n) ==> WithOption(settings, option).indent == n
    ensures (forall n :: !IsIndent(option, n)) ==> WithOption(settings, option).indent == settings.indent
  {
    forall n | IsIndent(option, n) ensures WithOption(settings, option).indent == n {
      var gap, digits, after: string :|
        && option == ":indent:" + (gap + (digits + after)) && AllSpace(gap)
        && IsDigits(digits) && NoDigitFirst(after) && Number(digits) == n;
      IndentRead(settings, gap, digits, after);
    }
    if forall n :: !IsIndent(option, n) {
      if WithOption(settings, option) != settings.(open := option == ":open:" || settings.open) { IndentFound(settings, option); }
    }
  }

  ghost predicate SetsIndent(line: string, n: nat) {
    IsIndent(Strip(line), n)
  }

  /** No line from number `i` on gives an indent. */
  ghost predicate LeavesIndent(lines: seq<string>, i: nat) {
    forall j, n | i <= j < |lines| :: !SetsIndent(lines[j], n)
  }

  lemma BlankHasNoOption(line: string)
    requires Blank(line)
    ensures Strip(line) != ":open:" && forall n :: !SetsIndent(line, n)
  {
    BlankAfterStrip(line);
  }

  ghost predicate FollowsLine(before: Settings, line: string, after: Settings) {
    && (after.open <==> before.open || Strip(line) == ":open:")
    && (forall n :: SetsIndent(line, n) ==> after.indent == n)
    && ((forall n :: !SetsIndent(line, n)) ==> after.indent == before.indent)
  }

  lemma OptionFollows(before: Settings, line: string)
    ensures FollowsLine(before, line, WithOption(before, Strip(line)))
  {
    OptionExactly(before, Strip(line));
    if forall n :: !SetsIndent(line, n) {
      forall n ensures !IsIndent(Strip(line), n) { assert !SetsIndent(line, n); }
    }
  }

  lemma LastLine(lines: seq<string>)
    requires lines != []
    ensures FollowsLine(SettingsOf(lines[..|lines| - 1]), lines[|lines| - 1], SettingsOf(lines))
  {
    if Blank(lines[|lines| - 1]) {
      BlankHasNoOption(lines[|lines| - 1]);
    } else {
      OptionFollows(SettingsOf(lines[..|lines| - 1]), lines[|lines| - 1]);
    }
  }

  /** A block is open exactly when one of its option lines says so. */
  lemma {:induction false} OpenExactly(lines: seq<string>)
    ensures SettingsOf(lines).open <==> exists i :: 0 <= i < |lines| && Strip(lines[i]) == ":open:"
  {
    if lines != [] {
      var k := |lines| - 1;
      OpenExactly(lines[..k]);
      LastLine(lines);
      assert forall i | 0 <= i < k :: lines[..k][i] == lines[i];
    }
  }

  /** Its indent is that of the last option line that gives one. */
  lemma {:induction false} IndentExactly(lines: seq<string>, i: nat, n: nat)
    requires i < |lines| && SetsIndent(lines[i], n) && LeavesIndent(lines, i + 1)
    ensures SettingsOf(lines).indent == n
  {
    LastLine(lines);
    if i < |lines| - 1 { IndentExactly(lines[..|lines| - 1], i, n); }
  }

  /** Without any it is 0. */
  lemma {:induction false} NoIndentIsZero(lines: seq<string>)
    requires LeavesIndent(lines, 0)
    ensures SettingsOf(lines).indent == 0
  {
    if lines != [] {
      LastLine(lines);
      NoIndentIsZero(lines[..|lines| - 1]);
    }
  }
}
