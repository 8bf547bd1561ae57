/** What the text of a profile patch sets (internal/profile/store.go, patchUser): lines are read back, and the
    result of a patch in terms of its text. */
module ProfilePatchText {
  import opened Text
  import opened ProfileLines
  import opened ProfilePatch

  // ---------- one line ----------

  lemma RegroupMiddle(pre: string, a: string, c: char, b: string, post: string)
    ensures (pre + a) + [c] + (b + post) == pre + (a + [c] + b) + post
  {}

  lemma TrimCut(x: string, c: char, y: string, cut: set<char>)
    requires c !in cut
    ensures Trim(x + [c] + y, cut) == TrimLeft(x, cut) + [c] + TrimRight(y, cut)
  {
    var pre := TrimLeftParts(x, cut);
    var post := TrimRightParts(y, cut);
    var a, b := TrimLeft(x, cut), TrimRight(y, cut);
    var middle := a + [c] + b;
    RegroupMiddle(pre, a, c, b, post);
    assert middle[0] == if a == "" then c else a[0];
    assert middle[|middle| - 1] == if b == "" then c else b[|b| - 1];
    TrimUnique(pre, middle, post, cut);
  }

  lemma TrimAfterLeft(x: string, cut: set<char>)
    ensures Trim(TrimLeft(x, cut), cut) == Trim(x, cut)
  {
    var pre := TrimLeftParts(x, cut);
    assert x == pre + TrimLeft(x, cut) + "";
    TrimAround(pre, TrimLeft(x, cut), "", cut);
  }

  lemma TrimAfterRight(x: string, cut: set<char>)
    ensures Trim(TrimRight(x, cut), cut) == Trim(x, cut)
  {
    var post := TrimRightParts(x, cut);
    assert x == "" + TrimRight(x, cut) + post;
    TrimAround("", TrimRight(x, cut), post, cut);
  }

  /** A line is split at its first colon: what is before it is the key, what is behind it the value, both
      without white space around them. A blank key sets nothing. */
  lemma ParseColon(x: string, y: string)
    requires Without(x, ':')
    ensures ParseSetting(x + ":" + y)
         == if TrimSpace(x) == "" then None else Some(Setting(TrimSpace(x), TrimSpace(y)))
  {
    var a, b := TrimLeft(x, WHITE), TrimRight(y, WHITE);
    assert x + ":" + y == x + [':'] + y;
    TrimCut(x, ':', y, WHITE);
    TrimLeftWithout(x, WHITE, ':');
    IndexOfCut(a, ':', b);
    TrimAfterLeft(x, WHITE);
    TrimAfterRight(y, WHITE);
  }

  /** A line without a colon sets nothing. */
  lemma ParseNoColon(line: string)
    requires Without(line, ':')
    ensures ParseSetting(line) == None
  {
    TrimWithout(line, WHITE, ':');
  }

  // ---------- whole patches ----------

  /** A line of a patch that gives a setting, with white space wherever it may stand; or one that gives none:
      without a colon, or with nothing before its first one. */
  datatype PatchLine =
    | Gives(s: Setting, indent: string, before: string, behind: string, trail: string)
    | Plain(text: string)
    | NoKey(blank: string, rest: string)

  predicate IsPatchLine(l: PatchLine) {
    match l
    case Gives(s, indent, before, behind, trail) =>
      && s.key != "" && IsTrimmed(s.key, WHITE) && Without(s.key, ':') && Without(s.key, '\n')
      && IsTrimmed(s.value, WHITE) && Without(s.value, '\n')
      && IsGap(indent) && IsGap(before) && IsGap(behind) && IsGap(trail)
    case Plain(text) => Without(text, ':') && Without(text, '\n')
    case NoKey(blank, rest) => IsGap(blank) && Without(rest, '\n')
  }

  predicate IsGap(gap: string) {
    AllIn(gap, WHITE) && Without(gap, '\n')
  }

  function LineText(l: PatchLine): string {
    match l
    case Gives(s, indent, before, behind, trail) => indent + s.key + before + ":" + (behind + s.value + trail)
    case Plain(text) => text
    case NoKey(blank, rest) => blank + ":" + rest
  }

  lemma LineGives(l: PatchLine)
    requires IsPatchLine(l)
    ensures ParseSetting(LineText(l)) == if l.Gives? then Some(l.s) else None
  {
    match l
    case Gives(s, indent, before, behind, trail) =>
      GapWithoutColon(indent);
      GapWithoutColon(before);
      WithoutConcat(indent, s.key, ':');
      WithoutConcat(indent + s.key, before, ':');
      ParseColon(indent + s.key + before, behind + s.value + trail);
      TrimUnique(indent, s.key, before, WHITE);
      TrimUnique(behind, s.value, trail, WHITE);
    case Plain(text) => ParseNoColon(text);
    case NoKey(blank, rest) =>
      GapWithoutColon(blank);
      ParseColon(blank, rest);
      TrimUnique(blank, "", "", WHITE);
      assert blank + "" + "" == blank;
  }

  lemma GapWithoutColon(gap: string)
    requires AllIn(gap, WHITE)
    ensures Without(gap, ':')
  {}

  function LineTexts(ls: seq<PatchLine>): seq<string> {
    seq(|ls|, i requires 0 <= i < |ls| => LineText(ls[i]))
  }

  /** The settings given, in order. */
  function Given(ls: seq<PatchLine>): seq<Setting> {
    if ls == [] then [] else
      var init, last := Given(ls[..|ls| - 1]), ls[|ls| - 1];
      if last.Gives? then init + [last.s] else init
  }

  predicate ArePatchLines(ls: seq<PatchLine>) {
    forall i | 0 <= i < |ls| :: IsPatchLine(ls[i])
  }

  lemma {:induction false} SettingsOfLines(ls: seq<PatchLine>)
    requires ArePatchLines(ls)
    ensures SettingsIn(LineTexts(ls)) == Given(ls)
  {
    if ls != [] {
      var init, last := ls[..|ls| - 1], ls[|ls| - 1];
      SettingsOfLines(init);
      LineGives(last);
      var texts := LineTexts(ls);
      assert texts[..|texts| - 1] == LineTexts(init) && texts[|texts| - 1] == LineText(last);
    }
  }

  // ---------- trimming the whole patch loses nothing ----------

  lemma SettingsInNext(lines: seq<string>, line: string)
    ensures SettingsIn(lines + [line])
         == if ParseSetting(line).Some? then SettingsIn(lines) + [ParseSetting(line).value] else SettingsIn(lines)
  {
    assert (lines + [line])[..|lines|] == lines;
  }

  lemma {:induction false} SettingsInConcat(a: seq<string>, b: seq<string>)
    ensures SettingsIn(a + b) == SettingsIn(a) + SettingsIn(b)
  {
    if b == [] {
      assert a + b == a;
    } else {
      var init, last := b[..|b| - 1], b[|b| - 1];
      assert b == init + [last];
      Associative(a, init, [last]);
      SettingsInConcat(a, init);
      SettingsInNext(a + init, last);
      SettingsInNext(init, last);
    }
  }

  lemma SettingsOfOne(line: string)
    ensures SettingsIn([line]) == if ParseSetting(line).Some? then [ParseSetting(line).value] else []
  {
    SettingsInNext([], line);
    assert [] + [line] == [line];
  }

  /** White space around a line does not matter. */
  lemma ParseAround(pre: string, line: string, post: string)
    requires AllIn(pre, WHITE) && AllIn(post, WHITE)
    ensures ParseSetting(pre + line + post) == ParseSetting(line)
  {
    TrimAround(pre, line, post, WHITE);
  }

  lemma ParseBlank()
    ensures ParseSetting("") == None
  {
    ParseNoColon("");
  }

  function SettingsOfText(text: string): seq<Setting> {
    SettingsIn(Split(text, '\n'))
  }

  lemma SettingsOfParts(a: string, b: string)
    ensures SettingsOfText(a + ['\n'] + b) == SettingsOfText(a) + SettingsOfText(b)
  {
    SplitConcat(a, b, '\n');
    SettingsInConcat(Split(a, '\n'), Split(b, '\n'));
  }

  lemma SettingsOfNothing()
    ensures SettingsOfText("") == []
  {
    SplitLine("", '\n');
    SettingsOfOne("");
    ParseBlank();
  }

  lemma WhiteBeforeLine(w: char, line: string)
    requires w in WHITE && w != '\n' && Without(line, '\n')
    ensures SettingsOfText([w] + line) == SettingsOfText(line)
  {
    SplitLine(line, '\n');
    SplitLine([w] + line, '\n');
    ParseAround([w], line, "");
    assert [w] + line + "" == [w] + line;
    SettingsOfOne(line);
    SettingsOfOne([w] + line);
  }

  lemma WhiteBeforeLines(w: char, line: string, rest: string)
    requires w in WHITE && w != '\n' && Without(line, '\n')
    ensures SettingsOfText([w] + (line + ['\n'] + rest)) == SettingsOfText(line + ['\n'] + rest)
  {
    assert [w] + (line + ['\n'] + rest) == ([w] + line) + ['\n'] + rest;
    SettingsOfParts(line, rest);
    SettingsOfParts([w] + line, rest);
    WhiteBeforeLine(w, line);
  }

  /** One white character more in front. */
  lemma WhiteBefore(w: char, text: string)
    requires w in WHITE
    ensures SettingsOfText([w] + text) == SettingsOfText(text)
  {
    var i := IndexOf(text, '\n');
    if w == '\n' {
      assert [w] + text == "" + ['\n'] + text;
      SettingsOfParts("", text);
      SettingsOfNothing();
    } else if i == |text| {
      WhiteBeforeLine(w, text);
    } else {
      assert text == text[..i] + ['\n'] + text[i + 1..];
      WhiteBeforeLines(w, text[..i], text[i + 1..]);
    }
  }

  /** One white character more behind. */
  lemma {:induction false} WhiteAfter(text: string, w: char)
    requires w in WHITE
    ensures SettingsOfText(text + [w]) == SettingsOfText(text)
    decreases |text|
  {
    var i := IndexOf(text, '\n');
    if w == '\n' {
      assert text + [w] == text + ['\n'] + "";
      SettingsOfParts(text, "");
      SettingsOfNothing();
    } else if i == |text| {
      SplitLine(text, '\n');
      SplitLine(text + [w], '\n');
      ParseAround("", text, [w]);
      assert "" + text + [w] == text + [w];
      SettingsOfOne(text);
      SettingsOfOne(text + [w]);
    } else {
      var first, rest := text[..i], text[i + 1..];
      assert text == first + ['\n'] + rest && text + [w] == first + ['\n'] + (rest + [w]);
      SettingsOfParts(first, rest);
      SettingsOfParts(first, rest + [w]);
      WhiteAfter(rest, w);
    }
  }

  lemma {:induction false} AllWhiteBefore(pre: string, text: string)
    requires AllIn(pre, WHITE)
    ensures SettingsOfText(pre + text) == SettingsOfText(text)
  {
    if pre == "" {
      assert pre + text == text;
    } else {
      assert pre + text == [pre[0]] + (pre[1..] + text);
      WhiteBefore(pre[0], pre[1..] + text);
      AllWhiteBefore(pre[1..], text);
    }
  }

  lemma {:induction false} AllWhiteAfter(text: string, post: string)
    requires AllIn(post, WHITE)
    ensures SettingsOfText(text + post) == SettingsOfText(text)
  {
    if post == "" {
      assert text + post == text;
    } else {
      var init, last := post[..|post| - 1], post[|post| - 1];
      assert text + post == (text + init) + [last];
      WhiteAfter(text + init, last);
      AllWhiteAfter(text, init);
    }
  }

  lemma SettingsOfTrimmed(patch: string)
    ensures Settings(patch) == SettingsOfText(patch)
  {
    var pre, post := TrimParts(patch, WHITE);
    AllWhiteAfter(pre + TrimSpace(patch), post);
    AllWhiteBefore(pre, TrimSpace(patch));
  }

  lemma LineTextIsLine(l: PatchLine)
    requires IsPatchLine(l)
    ensures Without(LineText(l), '\n')
  {
    match l
    case Gives(s, indent, before, behind, trail) =>
      WithoutConcat(indent, s.key, '\n');
      WithoutConcat(indent + s.key, before, '\n');
      WithoutConcat(indent + s.key + before, ":", '\n');
      WithoutConcat(behind, s.value, '\n');
      WithoutConcat(behind + s.value, trail, '\n');
      WithoutConcat(indent + s.key + before + ":", behind + s.value + trail, '\n');
    case Plain(text) =>
    case NoKey(blank, rest) =>
  }

  /** The text of a patch gives back exactly the settings its lines give, in order; values may hold colons,
      and lines without a colon or without a key give nothing wherever they stand. */
  lemma PatchRoundTrip(ls: seq<PatchLine>)
    requires ArePatchLines(ls)
    ensures Settings(Join(LineTexts(ls), '\n')) == Given(ls)
  {
    SettingsOfTrimmed(Join(LineTexts(ls), '\n'));
    if ls == [] {
      SettingsOfNothing();
    } else {
      forall i | 0 <= i < |ls| ensures Without(LineTexts(ls)[i], '\n') {
        LineTextIsLine(ls[i]);
      }
      SplitJoin(LineTexts(ls), '\n');
      SettingsOfLines(ls);
    }
  }

  // ---------- what a patch does, by its text ----------

  function ShownAs(s: Setting): string {
    "- **" + s.key + ":** " + s.value
  }

  lemma LabelShown(s: Setting)
    ensures Label(s) == ShownAs(s)
  {
    assert [':'] + Close() + " " == ":** ";
    assert Label(s) == Open() + s.key + ([':'] + Close() + " ") + s.value;
  }

  /** After a patch given as text every line of a patched key shows the key and the last value the text gives
      for it, and there is such a line. */
  lemma PatchTextShowsLast(expand: Expansion, current: string, ls: seq<PatchLine>, i: nat)
    requires CopiesPlain(expand) && ArePatchLines(ls) && Without(Join(LineTexts(ls), '\n'), '$')
    requires i < |Given(ls)| && IsLast(Given(ls), i)
    ensures var s, body := Given(ls)[i], Body(Patched(expand, current, Join(LineTexts(ls), '\n')));
      && (exists k | 0 <= k < |body| :: Matches(s.key, body[k]))
      && forall k | 0 <= k < |body| && Matches(s.key, body[k]) :: body[k] == ShownAs(s)
  {
    PatchRoundTrip(ls);
    PatchShowsLast(expand, current, Join(LineTexts(ls), '\n'), i);
    LabelShown(Given(ls)[i]);
  }

  /** The text has the heading somewhere, in any letter case. */
  ghost predicate ShowsHeading(text: string) {
    exists i | 0 <= i <= |text| :: HasPrefix(ToLower(text)[i..], "## profile")
  }

  lemma HeadingShown(text: string)
    ensures HasHeading(text) <==> ShowsHeading(text)
  {
    if HasHeading(text) {
      var i :| 0 <= i <= |ToLower(text)| && LowerHeading() <= ToLower(text)[i..];
      assert HasPrefix(ToLower(text)[i..], "## profile");
    }
    if ShowsHeading(text) {
      var i :| 0 <= i <= |text| && HasPrefix(ToLower(text)[i..], "## profile");
      assert LowerHeading() <= ToLower(text)[i..];
    }
  }

  /** A new key goes to the end of the text, on a line of its own: a blank profile is started over, and a text
      without the heading gets it first. */
  lemma NewKeyText(expand: Expansion, current: string, l: PatchLine)
    requires IsPatchLine(l) && l.Gives? && !AnyMatch(l.s.key, Split(current, '\n'))
    ensures Patched(expand, current, LineText(l))
         == (if TrimSpace(current) == "" then "# USER\n\n## Profile"
             else if ShowsHeading(current) then TrimRight(current, {'\n'})
             else TrimRight(current, {'\n'}) + "\n\n## Profile")
            + "\n" + ShownAs(l.s) + "\n"
  {
    OneLinePatch(l);
    OneSetting(expand, current, l.s);
    AddedLine(expand, current, l.s);
    EndsLine(Ahead(current), Label(l.s));
    LabelShown(l.s);
    AheadShown(current);
  }

  lemma OneLinePatch(l: PatchLine)
    requires IsPatchLine(l) && l.Gives?
    ensures Settings(LineText(l)) == [l.s]
  {
    PatchRoundTrip([l]);
    assert LineTexts([l]) == [LineText(l)] && Join([LineText(l)], '\n') == LineText(l);
    assert [l][..0] == [] && Given([l]) == [l.s];
  }

  lemma AheadShown(text: string)
    ensures Ahead(text)
         == if TrimSpace(text) == "" then "# USER\n\n## Profile"
            else if ShowsHeading(text) then TrimRight(text, {'\n'})
            else TrimRight(text, {'\n'}) + "\n\n## Profile"
  {
    HeadingShown(text);
    var t := TrimRight(text, NEWLINE);
    assert Title() + "\n\n" + Heading() == "# USER\n\n## Profile";
    assert t + "\n\n" + Heading() == t + "\n\n## Profile";
  }

  /** The result of a patch ends its last line, and a text that does so already is left as it is when nothing
      is set. */
  lemma PatchEndsLine(expand: Expansion, current: string, patch: string)
    ensures HasSuffix(Patched(expand, current, patch), "\n")
    ensures Settings(patch) == [] && HasSuffix(current, "\n") ==> Patched(expand, current, patch) == current
  {}
}
