/** Patching USER.md and appending to profile files (internal/profile/store.go). */
module ProfilePatch {
  import opened Text
  import opened ProfileLines

  /** The replacement-template expansion of regexp.ReplaceAllString: template, matched text. */
  type Expansion = (string, string) -> string

  /** It copies templates without a dollar sign. */
  ghost predicate CopiesPlain(expand: Expansion) {
    forall t, m :: Without(t, '$') ==> expand(t, m) == t
  }

  const NEWLINE: set<char> := {'\n'}

  // ---------- text and lines ----------

  /** The lines of a text without the empty ones at its end. */
  function TrimEnd(lines: seq<string>): (r: seq<string>)
    ensures r <= lines
    ensures forall i | |r| <= i < |lines| :: lines[i] == ""
  {
    if lines != [] && lines[|lines| - 1] == "" then TrimEnd(lines[..|lines| - 1]) else lines
  }

  /** A profile up to its trailing newlines, in lines. */
  function Body(text: string): seq<string> {
    TrimEnd(Split(text, '\n'))
  }

  lemma {:induction false} SplitConcat(a: string, b: string, c: char)
    ensures Split(a + [c] + b, c) == Split(a, c) + Split(b, c)
    decreases |a|
  {
    var i := IndexOf(a, c);
    if i == |a| {
      SplitCons(a, b, c);
    } else {
      var first, rest := a[..i], a[i + 1..];
      assert a == first + [c] + rest;
      Regroup(first, rest, c, b);
      SplitCons(first, rest + [c] + b, c);
      SplitCons(first, rest, c);
      SplitConcat(rest, b, c);
      Associative([first], Split(rest, c), Split(b, c));
    }
  }

  lemma Regroup(first: string, rest: string, c: char, b: string)
    ensures first + [c] + rest + [c] + b == first + [c] + (rest + [c] + b)
  {}

  lemma SplitLine(line: string, c: char)
    requires Without(line, c)
    ensures Split(line, c) == [line]
  {}

  lemma SplitEnd(text: string)
    ensures Split(text + "\n", '\n') == Split(text, '\n') + [""]
  {
    SplitConcat(text, "", '\n');
    SplitLine("", '\n');
    assert text + ['\n'] + "" == text + "\n";
  }

  lemma {:induction false} LastLine(text: string, c: char)
    requires text != "" && text[|text| - 1] != c
    ensures Split(text, c)[|Split(text, c)| - 1] != ""
    decreases |text|
  {
    var i := IndexOf(text, c);
    if i < |text| {
      LastLine(text[i + 1..], c);
    }
  }

  /** Trimming newlines off the end of a text trims the empty lines off its end. */
  lemma {:induction false} BodyOfTrimmed(text: string)
    ensures var t := TrimRight(text, NEWLINE); Body(text) == if t == "" then [] else Split(t, '\n')
  {
    if text == "" {
      SplitLine("", '\n');
      assert [""][..0] == [];
    } else if text[|text| - 1] == '\n' {
      var init := text[..|text| - 1];
      assert text == init + "\n";
      SplitEnd(init);
      TrimEndDrops(Split(init, '\n'));
      BodyOfTrimmed(init);
    } else {
      LastLine(text, '\n');
    }
  }

  lemma TrimEndDrops(lines: seq<string>)
    ensures TrimEnd(lines + [""]) == TrimEnd(lines)
  {
    assert (lines + [""])[..|lines|] == lines;
  }

  lemma TrimEndKeeps(lines: seq<string>, line: string)
    requires line != ""
    ensures TrimEnd(lines + [line, ""]) == lines + [line]
  {
    assert lines + [line, ""] == (lines + [line]) + [""];
    TrimEndDrops(lines + [line]);
  }

  /** Every line of a text is a part of it. */
  lemma {:induction false} LineInText(text: string, c: char, i: nat) returns (at: nat)
    requires i < |Split(text, c)|
    ensures at <= |text| && Split(text, c)[i] <= text[at..]
    decreases i
  {
    at := 0;
    var k := IndexOf(text, c);
    if k < |text| && i > 0 {
      var rest := text[k + 1..];
      at := LineInText(rest, c, i - 1);
      DropDrop(text, k + 1, at);
      at := k + 1 + at;
    }
  }

  lemma DropDrop(s: string, i: nat, j: nat)
    requires i + j <= |s|
    ensures s[i..][j..] == s[i + j..]
  {}

  lemma PartOfBlank(text: string, at: nat, line: string)
    requires at <= |text| && line <= text[at..] && IsBlank(text)
    ensures IsBlank(line)
  {
    BlankAll(text);
    BlankAll(line);
    forall c | c in line ensures c in WHITE {
      assert c in text[at..];
    }
  }

  lemma KeyLineNotBlank(key: string, line: string)
    requires Matches(key, line)
    ensures !IsBlank(line)
  {
    assert ToLower(Mark(key))[0] == '-' && Lower(line[0]) == ToLower(line)[0];
  }

  /** A blank text has no line for any key. */
  lemma BlankHasNoKey(text: string, key: string)
    requires IsBlank(text)
    ensures !AnyMatch(key, Split(text, '\n'))
  {
    var lines := Split(text, '\n');
    forall i | 0 <= i < |lines| ensures !Matches(key, lines[i]) {
      var at := LineInText(text, '\n', i);
      PartOfBlank(text, at, lines[i]);
      if Matches(key, lines[i]) {
        KeyLineNotBlank(key, lines[i]);
      }
    }
  }

  /** strings.Contains */
  predicate Contains(s: string, part: string) {
    exists i | 0 <= i <= |s| :: part <= s[i..]
  }

  predicate HasHeading(text: string) {
    Contains(ToLower(text), LowerHeading())
  }

  lemma LowerPart(text: string, at: nat, part: string)
    requires at <= |text| && part <= text[at..]
    ensures Contains(ToLower(text), ToLower(part))
  {
    var low, tail := ToLower(text), text[at..][|part|..];
    assert text[at..] == part + tail;
    ToLowerConcat(part, tail);
    assert low[at..] == ToLower(text[at..]);
  }

  lemma HeadingLine(text: string, i: nat)
    requires i < |Split(text, '\n')| && Split(text, '\n')[i] == Heading()
    ensures HasHeading(text)
  {
    var at := LineInText(text, '\n', i);
    LowerPart(text, at, Heading());
    LoweredHeading();
  }

  lemma LoweredHeading()
    ensures ToLower(Heading()) == LowerHeading()
  {}

  // ---------- settings on text ----------

  function ReplaceLines(expand: Expansion, s: Setting, lines: seq<string>): seq<string> {
    seq(|lines|, i requires 0 <= i < |lines| =>
      if Matches(s.key, lines[i]) then expand(Label(s), lines[i]) else lines[i])
  }

  function SetText(expand: Expansion, text: string, s: Setting): string {
    var lines := Split(text, '\n');
    if AnyMatch(s.key, lines) then Join(ReplaceLines(expand, s, lines), '\n')
    else if TrimSpace(text) == "" then Title() + "\n\n" + Heading() + "\n" + Label(s) + "\n"
    else if HasHeading(text) then TrimRight(text, NEWLINE) + "\n" + Label(s) + "\n"
    else TrimRight(text, NEWLINE) + "\n\n" + Heading() + "\n" + Label(s) + "\n"
  }

  function SetTexts(expand: Expansion, text: string, settings: seq<Setting>): string {
    if settings == [] then text
    else SetText(expand, SetTexts(expand, text, settings[..|settings| - 1]), settings[|settings| - 1])
  }

  function EnsureTrailingNewline(s: string): string {
    if s == "" then "\n" else if HasSuffix(s, "\n") then s else s + "\n"
  }

  /** What every setting of a patch without dollar signs is. */
  predicate IsPlain(s: Setting) {
    Without(s.key, ':') && Without(Label(s), '\n') && Without(Label(s), '$')
  }

  lemma LabelNotEmpty(s: Setting)
    ensures Label(s) != ""
  {
    assert |Label(s)| >= |Mark(s.key)| > 0;
  }

  lemma {:induction false} TrimEndSets(s: Setting, lines: seq<string>)
    ensures TrimEnd(SetLines(s, lines)) == SetLines(s, TrimEnd(lines))
  {
    if lines != [] {
      var init, last := lines[..|lines| - 1], lines[|lines| - 1];
      assert SetLines(s, lines)[..|init|] == SetLines(s, init);
      NoKeyLine(s.key, "");
      LabelNotEmpty(s);
      if last == "" {
        TrimEndSets(s, init);
      }
    }
  }

  lemma BodyHasKeys(text: string, key: string)
    ensures AnyMatch(key, Body(text)) <==> AnyMatch(key, Split(text, '\n'))
  {
    var lines, body := Split(text, '\n'), Body(text);
    NoKeyLine(key, "");
    if AnyMatch(key, lines) {
      var i :| 0 <= i < |lines| && Matches(key, lines[i]);
      assert body[i] == lines[i];
    }
    if AnyMatch(key, body) {
      var i :| 0 <= i < |body| && Matches(key, body[i]);
      assert lines[i] == body[i];
    }
  }

  lemma ReplacedLines(expand: Expansion, s: Setting, lines: seq<string>)
    requires CopiesPlain(expand) && IsPlain(s)
    ensures ReplaceLines(expand, s, lines) == SetLines(s, lines)
  {}

  lemma ReplacedText(expand: Expansion, text: string, s: Setting)
    requires CopiesPlain(expand) && IsPlain(s) && AnyMatch(s.key, Split(text, '\n'))
    ensures Split(SetText(expand, text, s), '\n') == SetLines(s, Split(text, '\n'))
  {
    var lines := Split(text, '\n');
    ReplacedLines(expand, s, lines);
    var after := SetLines(s, lines);
    assert forall i | 0 <= i < |after| :: Without(after[i], '\n');
    SplitJoin(after, '\n');
  }

  lemma SplitLabelled(text: string, line: string)
    requires Without(line, '\n')
    ensures Split(text + "\n" + line + "\n", '\n') == Split(text, '\n') + [line, ""]
  {
    SplitEnd(text + "\n" + line);
    SplitConcat(text, line, '\n');
    SplitLine(line, '\n');
    assert text + ['\n'] + line == text + "\n" + line;
    assert [line] + [""] == [line, ""];
  }

  lemma SplitParted(text: string, head: string)
    requires Without(head, '\n')
    ensures Split(text + "\n\n" + head, '\n') == Split(text, '\n') + ["", head]
  {
    assert text + "\n\n" + head == (text + "\n") + ['\n'] + head;
    SplitConcat(text + "\n", head, '\n');
    SplitEnd(text);
    SplitLine(head, '\n');
    assert [""] + [head] == ["", head];
  }

  lemma SplitHeaded(text: string, head: string, line: string)
    requires Without(head, '\n') && Without(line, '\n')
    ensures Split(text + "\n\n" + head + "\n" + line + "\n", '\n') == Split(text, '\n') + ["", head, line, ""]
  {
    SplitLabelled(text + "\n\n" + head, line);
    SplitParted(text, head);
    assert ["", head] + [line, ""] == ["", head, line, ""];
  }

  lemma TrimmedBody(text: string)
    requires TrimSpace(text) != ""
    ensures Body(text) == Split(TrimRight(text, NEWLINE), '\n')
  {
    BodyOfTrimmed(text);
    if TrimRight(text, NEWLINE) == "" {
      TrimRightEmpty(text, NEWLINE);
      TrimEmpty(text, WHITE);
    }
  }

  lemma BodyLabelled(text: string, line: string)
    requires TrimSpace(text) != "" && Without(line, '\n') && line != ""
    ensures Body(TrimRight(text, NEWLINE) + "\n" + line + "\n") == Body(text) + [line]
  {
    TrimmedBody(text);
    SplitLabelled(TrimRight(text, NEWLINE), line);
    TrimEndKeeps(Body(text), line);
  }

  lemma BodyHeaded(text: string, head: string, line: string)
    requires TrimSpace(text) != "" && Without(head, '\n') && Without(line, '\n') && line != ""
    ensures Body(TrimRight(text, NEWLINE) + "\n\n" + head + "\n" + line + "\n") == Body(text) + ["", head, line]
  {
    TrimmedBody(text);
    SplitHeaded(TrimRight(text, NEWLINE), head, line);
    HeadedEnd(Body(text), head, line);
  }

  lemma HeadedEnd(lines: seq<string>, head: string, line: string)
    requires line != ""
    ensures TrimEnd(lines + ["", head, line, ""]) == lines + ["", head, line]
  {
    TrimEndKeeps(lines + ["", head], line);
    assert lines + ["", head, line, ""] == lines + ["", head] + [line, ""];
    assert lines + ["", head] + [line] == lines + ["", head, line];
  }

  lemma BodyFresh(title: string, head: string, line: string)
    requires Without(title, '\n') && Without(head, '\n') && Without(line, '\n') && line != ""
    ensures Body(title + "\n\n" + head + "\n" + line + "\n") == [title, "", head, line]
  {
    SplitHeaded(title, head, line);
    SplitLine(title, '\n');
    HeadedEnd([title], head, line);
    assert [title] + ["", head, line] == [title, "", head, line];
  }

  /** A setting changes the lines of the text as `Place` says. */
  lemma SetTextBody(expand: Expansion, text: string, s: Setting)
    requires CopiesPlain(expand) && IsPlain(s)
    ensures Body(SetText(expand, text, s)) == Place(s, Body(text), TrimSpace(text) == "", HasHeading(text))
  {
    BodyHasKeys(text, s.key);
    LabelNotEmpty(s);
    if AnyMatch(s.key, Split(text, '\n')) {
      ReplacedText(expand, text, s);
      TrimEndSets(s, Split(text, '\n'));
    } else if TrimSpace(text) == "" {
      BodyFresh(Title(), Heading(), Label(s));
    } else if HasHeading(text) {
      BodyLabelled(text, Label(s));
    } else {
      BodyHeaded(text, Heading(), Label(s));
    }
  }

  // ---------- a run of settings ----------

  predicate AllPlain(settings: seq<Setting>) {
    forall i | 0 <= i < |settings| :: IsPlain(settings[i])
  }

  /** After a run no line is out of date and no key is missing. */
  lemma {:induction false} RunSettles(expand: Expansion, text: string, settings: seq<Setting>)
    requires CopiesPlain(expand) && AllPlain(settings)
    ensures var body := Body(SetTexts(expand, text, settings));
            Settled(settings, body) && AllPresent(settings, body)
  {
    if settings != [] {
      var init, last := settings[..|settings| - 1], settings[|settings| - 1];
      assert settings == init + [last];
      RunSettles(expand, text, init);
      var before := SetTexts(expand, text, init);
      var body, blank, headed := Body(before), TrimSpace(before) == "", HasHeading(before);
      SetTextBody(expand, before, last);
      PlaceSettles(init, last, body, blank, headed);
      forall i | 0 <= i < |settings| ensures AnyMatch(settings[i].key, Place(last, body, blank, headed)) {
        NoKeyWhenBlank(before, settings[i].key);
        PlaceKeepsKeys(last, body, blank, headed, settings[i].key);
        assert i < |init| ==> settings[i] == init[i];
      }
    }
  }

  lemma NoKeyWhenBlank(text: string, key: string)
    ensures TrimSpace(text) == "" ==> !AnyMatch(key, Body(text))
  {
    if TrimSpace(text) == "" {
      BlankTrims(text);
      BlankHasNoKey(text, key);
      BodyHasKeys(text, key);
    }
  }

  predicate Names(settings: seq<Setting>, key: string) {
    exists i | 0 <= i < |settings| :: EqualFold(key, settings[i].key)
  }

  lemma SetTextCounts(expand: Expansion, text: string, s: Setting, key: string)
    requires CopiesPlain(expand) && IsPlain(s) && Without(key, ':')
    ensures Count(key, Body(SetText(expand, text, s)))
         == if EqualFold(key, s.key) && Count(key, Body(text)) == 0 then 1 else Count(key, Body(text))
  {
    SetTextBody(expand, text, s);
    NoKeyWhenBlank(text, key);
    PlaceCounts(s, Body(text), TrimSpace(text) == "", HasHeading(text), key);
    CountAny(key, Body(text));
  }

  /** A run adds exactly one line for each key that had none. */
  lemma {:induction false} RunCounts(expand: Expansion, text: string, settings: seq<Setting>, key: string)
    requires CopiesPlain(expand) && AllPlain(settings) && Without(key, ':')
    ensures Count(key, Body(SetTexts(expand, text, settings)))
         == if Names(settings, key) && Count(key, Body(text)) == 0 then 1 else Count(key, Body(text))
  {
    if settings != [] {
      var init, last := settings[..|settings| - 1], settings[|settings| - 1];
      assert settings == init + [last];
      RunCounts(expand, text, init, key);
      SetTextCounts(expand, SetTexts(expand, text, init), last, key);
      NamesNext(init, last, key);
    }
  }

  lemma NamesNext(settings: seq<Setting>, s: Setting, key: string)
    ensures Names(settings + [s], key) <==> Names(settings, key) || EqualFold(key, s.key)
  {
    var next := settings + [s];
    assert next[|settings|] == s;
    if Names(settings, key) {
      var i :| 0 <= i < |settings| && EqualFold(key, settings[i].key);
      assert next[i] == settings[i];
    }
  }

  predicate NeedsHeading(text: string, s: Setting) {
    !AnyMatch(s.key, Body(text)) && TrimSpace(text) != "" && !HasHeading(text)
  }

  /** Some setting of the run found neither a line for its key nor a heading. */
  predicate AddsHeading(expand: Expansion, text: string, settings: seq<Setting>) {
    settings != [] &&
    var init := settings[..|settings| - 1];
    AddsHeading(expand, text, init) || NeedsHeading(SetTexts(expand, text, init), settings[|settings| - 1])
  }

  function OthersAfter(expand: Expansion, text: string, all: seq<Setting>, settings: seq<Setting>): seq<string> {
    if settings == [] then Others(all, Body(text))
    else if TrimSpace(text) == "" then [Title(), "", Heading()]
    else if AddsHeading(expand, text, settings) then Others(all, Body(text)) + ["", Heading()]
    else Others(all, Body(text))
  }

  lemma {:induction false} OtherIsLine(settings: seq<Setting>, lines: seq<string>, k: nat) returns (i: nat)
    requires k < |Others(settings, lines)|
    ensures i < |lines| && lines[i] == Others(settings, lines)[k]
  {
    var init, last := lines[..|lines| - 1], lines[|lines| - 1];
    i := |init|;
    if k < |Others(settings, init)| {
      i := OtherIsLine(settings, init, k);
    }
  }

  lemma HeadingStays(text: string, all: seq<Setting>)
    requires var o := Others(all, Body(text)); o != [] && o[|o| - 1] == Heading()
    ensures HasHeading(text)
  {
    var i := OtherIsLine(all, Body(text), |Others(all, Body(text))| - 1);
    HeadingLine(text, i);
  }

  lemma SetTextKeepsOthers(expand: Expansion, text: string, all: seq<Setting>, s: Setting)
    requires CopiesPlain(expand) && AllPlain(all) && s in all
    ensures Others(all, Body(SetText(expand, text, s)))
         == if TrimSpace(text) == "" then [Title(), "", Heading()]
            else if NeedsHeading(text, s) then Others(all, Body(text)) + ["", Heading()]
            else Others(all, Body(text))
  {
    SetTextBody(expand, text, s);
    NoKeyWhenBlank(text, s.key);
    PlaceKeepsOthers(all, s, Body(text), TrimSpace(text) == "", HasHeading(text));
  }

  lemma HeadingKept(expand: Expansion, text: string, all: seq<Setting>, settings: seq<Setting>)
    requires CopiesPlain(expand) && AllPlain(settings) && settings != []
    requires Others(all, Body(SetTexts(expand, text, settings))) == OthersAfter(expand, text, all, settings)
    ensures IsHeaded(expand, text, settings)
  {
    RunNotBlank(expand, text, settings);
    if TrimSpace(text) == "" || AddsHeading(expand, text, settings) {
      HeadingStays(SetTexts(expand, text, settings), all);
    }
  }

  /** The heading, once there, is not added again. */
  predicate IsHeaded(expand: Expansion, text: string, settings: seq<Setting>) {
    var after := SetTexts(expand, text, settings);
    settings == [] ||
    (TrimSpace(after) != "" && (TrimSpace(text) == "" || AddsHeading(expand, text, settings) ==> HasHeading(after)))
  }

  lemma OthersAfterNext(expand: Expansion, text: string, all: seq<Setting>, init: seq<Setting>, last: Setting)
    requires IsHeaded(expand, text, init)
    ensures OthersAfter(expand, text, all, init + [last])
         == var before, o := SetTexts(expand, text, init), OthersAfter(expand, text, all, init);
            (if TrimSpace(before) == "" then [Title(), "", Heading()]
             else if NeedsHeading(before, last) then o + ["", Heading()]
             else o)
  {
    var all', before := init + [last], SetTexts(expand, text, init);
    assert all'[..|all'| - 1] == init && all' != [];
    assert AddsHeading(expand, text, all') <==> AddsHeading(expand, text, init) || NeedsHeading(before, last);
    if init == [] {
      assert before == text;
      assert !AddsHeading(expand, text, init);
      assert OthersAfter(expand, text, all, init) == Others(all, Body(text));
    } else {
      assert TrimSpace(text) == "" ==> !NeedsHeading(before, last);
    }
  }

  lemma RunOthersNext(expand: Expansion, text: string, all: seq<Setting>, init: seq<Setting>, last: Setting)
    requires CopiesPlain(expand) && AllPlain(all) && last in all && IsHeaded(expand, text, init)
    requires Others(all, Body(SetTexts(expand, text, init))) == OthersAfter(expand, text, all, init)
    ensures Others(all, Body(SetTexts(expand, text, init + [last]))) == OthersAfter(expand, text, all, init + [last])
  {
    SetTextKeepsOthers(expand, SetTexts(expand, text, init), all, last);
    OthersAfterNext(expand, text, all, init, last);
    assert (init + [last])[..|init|] == init;
  }

  /** A run keeps the lines of other keys, and adds the heading at most once. */
  lemma {:induction false} RunKeepsOthers(expand: Expansion, text: string, all: seq<Setting>, settings: seq<Setting>)
    requires CopiesPlain(expand) && AllPlain(all) && AllPlain(settings)
    requires forall i | 0 <= i < |settings| :: settings[i] in all
    ensures Others(all, Body(SetTexts(expand, text, settings))) == OthersAfter(expand, text, all, settings)
  {
    if settings != [] {
      var init, last := settings[..|settings| - 1], settings[|settings| - 1];
      assert settings == init + [last];
      RunKeepsOthers(expand, text, all, init);
      if init != [] {
        HeadingKept(expand, text, all, init);
      }
      RunOthersNext(expand, text, all, init, last);
    }
  }

  lemma RunNotBlank(expand: Expansion, text: string, settings: seq<Setting>)
    requires CopiesPlain(expand) && AllPlain(settings) && settings != []
    ensures TrimSpace(SetTexts(expand, text, settings)) != ""
  {
    RunSettles(expand, text, settings);
    NoKeyWhenBlank(SetTexts(expand, text, settings), settings[0].key);
  }

  /** When every key has a line, a run only rewrites lines. */
  lemma {:induction false} RunRewrites(expand: Expansion, text: string, settings: seq<Setting>)
    requires CopiesPlain(expand) && AllPlain(settings) && AllPresent(settings, Split(text, '\n'))
    ensures Split(SetTexts(expand, text, settings), '\n') == SetAllLines(settings, Split(text, '\n'))
  {
    var lines := Split(text, '\n');
    if settings == [] {
      assert SetAllLines(settings, lines) == lines;
    } else {
      var init, last := settings[..|settings| - 1], settings[|settings| - 1];
      assert forall i | 0 <= i < |init| :: init[i] == settings[i];
      RunRewrites(expand, text, init);
      assert AnyMatch(last.key, lines);
      var k :| 0 <= k < |lines| && Matches(last.key, lines[k]);
      SetAllKeepsKey(init, lines[k], last.key);
      assert Matches(last.key, SetAllLines(init, lines)[k]);
      ReplacedText(expand, SetTexts(expand, text, init), last);
      assert SetLines(last, SetAllLines(init, lines)) == SetAllLines(settings, lines);
    }
  }

  // ---------- patches ----------

  function ParseSetting(raw: string): Option<Setting> {
    var line := TrimSpace(raw);
    var colon := IndexOf(line, ':');
    if colon == |line| then None
    else
      var key, value := TrimSpace(line[..colon]), TrimSpace(line[colon + 1..]);
      if key == "" then None else Some(Setting(key, value))
  }

  function SettingsIn(lines: seq<string>): seq<Setting> {
    if lines == [] then []
    else
      var init := SettingsIn(lines[..|lines| - 1]);
      match ParseSetting(lines[|lines| - 1])
      case None => init
      case Some(s) => init + [s]
  }

  /** The settings of a patch, in order. */
  function Settings(patch: string): seq<Setting> {
    SettingsIn(Split(TrimSpace(patch), '\n'))
  }

  function Patched(expand: Expansion, current: string, patch: string): string {
    EnsureTrailingNewline(SetTexts(expand, current, Settings(patch)))
  }

  method PatchUser(expand: Expansion, current: string, patch: string) returns (out: string)
    ensures out == Patched(expand, current, patch)
  {
    out := current;
    var lines := Split(TrimSpace(patch), '\n');
    for i := 0 to |lines|
      invariant out == SetTexts(expand, current, SettingsIn(lines[..i]))
    {
      SettingsNext(expand, current, lines, i);
      match ParseSetting(lines[i])
      case None =>
      case Some(setting) => out := SetLine(expand, out, setting);
    }
    assert lines[..|lines|] == lines;
    out := EnsureTrailingNewline(out);
  }

  lemma SettingsNext(expand: Expansion, text: string, lines: seq<string>, i: nat)
    requires i < |lines|
    ensures var done, all := SettingsIn(lines[..i]), SettingsIn(lines[..i + 1]);
            match ParseSetting(lines[i])
            case None => all == done
            case Some(s) => SetTexts(expand, text, all) == SetText(expand, SetTexts(expand, text, done), s)
  {
    var done := SettingsIn(lines[..i]);
    assert lines[..i + 1][..i] == lines[..i];
    match ParseSetting(lines[i])
    case None =>
    case Some(s) => assert (done + [s])[..|done|] == done;
  }

  /** A round of PatchUser's loop, for a line that is a setting. */
  method SetLine(expand: Expansion, text: string, s: Setting) returns (out: string)
    ensures out == SetText(expand, text, s)
  {
    var lines := Split(text, '\n');
    if AnyMatch(s.key, lines) {
      return Join(ReplaceLines(expand, s, lines), '\n');
    }
    if TrimSpace(text) == "" {
      return Title() + "\n\n" + Heading() + "\n" + Label(s) + "\n";
    }
    if HasHeading(text) {
      out := TrimRight(text, NEWLINE) + "\n" + Label(s) + "\n";
    } else {
      out := TrimRight(text, NEWLINE) + "\n\n" + Heading() + "\n" + Label(s) + "\n";
    }
  }

  // ---------- what a patch does ----------

  lemma {:induction false} TrimLeftWithout(s: string, cut: set<char>, c: char)
    requires Without(s, c)
    ensures Without(TrimLeft(s, cut), c)
  {
    if s != "" && s[0] in cut {
      assert forall i | 0 <= i < |s| - 1 :: s[1..][i] == s[i + 1];
      TrimLeftWithout(s[1..], cut, c);
    }
  }

  lemma TrimWithout(s: string, cut: set<char>, c: char)
    requires Without(s, c)
    ensures Without(Trim(s, cut), c)
  {
    var t := TrimRight(s, cut);
    assert forall i | 0 <= i < |t| :: t[i] == s[i];
    TrimLeftWithout(t, cut, c);
  }

  lemma {:induction false} SplitWithout(s: string, c: char, d: char)
    requires Without(s, d)
    ensures forall i | 0 <= i < |Split(s, c)| :: Without(Split(s, c)[i], d)
    decreases |s|
  {
    var k := IndexOf(s, c);
    if k < |s| {
      var rest := s[k + 1..];
      assert forall i | 0 <= i < |rest| :: rest[i] == s[k + 1 + i];
      SplitWithout(rest, c, d);
    }
  }

  lemma ParsedWithout(raw: string, c: char)
    requires Without(raw, c)
    ensures var r := ParseSetting(raw); r.Some? ==> Without(r.value.key, c) && Without(r.value.value, c)
  {
    var line := TrimSpace(raw);
    TrimWithout(raw, WHITE, c);
    var colon := IndexOf(line, ':');
    if colon < |line| {
      var tail := line[colon + 1..];
      assert forall i | 0 <= i < |tail| :: tail[i] == line[colon + 1 + i];
      TrimWithout(line[..colon], WHITE, c);
      TrimWithout(tail, WHITE, c);
    }
  }

  lemma ParsedKey(raw: string)
    ensures var r := ParseSetting(raw); r.Some? ==> Without(r.value.key, ':') && r.value.key != ""
  {
    var line := TrimSpace(raw);
    TrimWithout(line[..IndexOf(line, ':')], WHITE, ':');
  }

  lemma LabelWithout(s: Setting, c: char)
    requires Without(s.key, c) && Without(s.value, c) && c != '-' && c != ' ' && c != '*' && c != ':'
    ensures Without(Label(s), c)
  {
    WithoutConcat(Open(), s.key, c);
    WithoutConcat(Open() + s.key, ":" + Close(), c);
    WithoutConcat(" ", s.value, c);
    WithoutConcat(Mark(s.key), " " + s.value, c);
    assert Open() + s.key + (":" + Close()) == Mark(s.key);
    assert Mark(s.key) + (" " + s.value) == Label(s);
  }

  lemma WithoutConcat(a: string, b: string, c: char)
    requires Without(a, c) && Without(b, c)
    ensures Without(a + b, c)
  {}

  predicate LabelsWithout(settings: seq<Setting>, c: char) {
    forall i | 0 <= i < |settings| :: Without(Label(settings[i]), c)
  }

  lemma {:induction false} SettingsInWithout(lines: seq<string>, c: char)
    requires c != '-' && c != ' ' && c != '*' && c != ':'
    requires forall i | 0 <= i < |lines| :: Without(lines[i], c)
    ensures LabelsWithout(SettingsIn(lines), c)
  {
    if lines != [] {
      var init, last := lines[..|lines| - 1], lines[|lines| - 1];
      SettingsInWithout(init, c);
      ParsedWithout(last, c);
      var r := ParseSetting(last);
      if r.Some? {
        LabelWithout(r.value, c);
      }
    }
  }

  lemma {:induction false} SettingsInKeys(lines: seq<string>)
    ensures ColonFree(SettingsIn(lines))
  {
    if lines != [] {
      SettingsInKeys(lines[..|lines| - 1]);
      ParsedKey(lines[|lines| - 1]);
    }
  }

  /** The keys of a patch have no colon, and its settings fit on one line. */
  lemma SettingsFit(patch: string)
    ensures ColonFree(Settings(patch)) && LabelsWithout(Settings(patch), '\n')
  {
    SettingsInKeys(Split(TrimSpace(patch), '\n'));
    SettingsInWithout(Split(TrimSpace(patch), '\n'), '\n');
  }

  lemma SettingsPlain(patch: string)
    requires Without(patch, '$')
    ensures AllPlain(Settings(patch))
  {
    SettingsFit(patch);
    TrimWithout(patch, WHITE, '$');
    SplitWithout(TrimSpace(patch), '\n', '$');
    SettingsInWithout(Split(TrimSpace(patch), '\n'), '$');
  }

  lemma NewlineKeepsBody(text: string)
    ensures Body(EnsureTrailingNewline(text)) == Body(text)
  {
    SplitEnd(text);
    TrimEndDrops(Split(text, '\n'));
    assert "" + "\n" == "\n";
  }

  /** After a patch without dollar signs every line of a patched key shows the last value given for the key,
      and there is such a line. */
  lemma PatchShowsLast(expand: Expansion, current: string, patch: string, i: nat)
    requires CopiesPlain(expand) && Without(patch, '$')
    requires i < |Settings(patch)| && IsLast(Settings(patch), i)
    ensures var s, body := Settings(patch)[i], Body(Patched(expand, current, patch));
            && AnyMatch(s.key, body)
            && forall k | 0 <= k < |body| && Matches(s.key, body[k]) :: body[k] == Label(s)
  {
    var settings := Settings(patch);
    SettingsPlain(patch);
    NewlineKeepsBody(SetTexts(expand, current, settings));
    RunSettles(expand, current, settings);
    var body := Body(Patched(expand, current, patch));
    forall k | 0 <= k < |body| && Matches(settings[i].key, body[k]) ensures body[k] == Label(settings[i]) {
      SetAllShowsLast(settings, i, body[k]);
    }
  }

  /** A patch without dollar signs adds one line for each key that had none, and drops or repeats none. */
  lemma PatchCounts(expand: Expansion, current: string, patch: string, key: string)
    requires CopiesPlain(expand) && Without(patch, '$') && Without(key, ':')
    ensures Count(key, Body(Patched(expand, current, patch)))
         == if Names(Settings(patch), key) && Count(key, Body(current)) == 0 then 1 else Count(key, Body(current))
  {
    SettingsPlain(patch);
    NewlineKeepsBody(SetTexts(expand, current, Settings(patch)));
    RunCounts(expand, current, Settings(patch), key);
  }

  /** A patch without dollar signs keeps the other lines in text and order; it may add the heading after them
      once, and starts a blank profile over. */
  lemma PatchKeepsOthers(expand: Expansion, current: string, patch: string)
    requires CopiesPlain(expand) && Without(patch, '$')
    ensures var settings := Settings(patch);
            Others(settings, Body(Patched(expand, current, patch))) == OthersAfter(expand, current, settings, settings)
  {
    SettingsPlain(patch);
    NewlineKeepsBody(SetTexts(expand, current, Settings(patch)));
    RunKeepsOthers(expand, current, Settings(patch), Settings(patch));
  }

  lemma SettledText(expand: Expansion, text: string, settings: seq<Setting>)
    requires CopiesPlain(expand) && AllPlain(settings)
    requires Settled(settings, Body(text)) && AllPresent(settings, Body(text))
    ensures SetTexts(expand, text, settings) == text
  {
    var lines := Split(text, '\n');
    forall i | 0 <= i < |settings| ensures AnyMatch(settings[i].key, lines) {
      BodyHasKeys(text, settings[i].key);
    }
    RunRewrites(expand, text, settings);
    forall i | 0 <= i < |lines| ensures SetAll(settings, lines[i]) == lines[i] {
      if i < |Body(text)| {
        assert lines[i] == Body(text)[i];
      } else {
        NoKeySettled(settings, lines[i]);
      }
    }
    assert SetAllLines(settings, lines) == lines;
    JoinSplit(text, '\n');
    JoinSplit(SetTexts(expand, text, settings), '\n');
  }

  /** Applying a patch without dollar signs again changes nothing. */
  lemma PatchIdempotent(expand: Expansion, current: string, patch: string)
    requires CopiesPlain(expand) && Without(patch, '$')
    ensures Patched(expand, Patched(expand, current, patch), patch) == Patched(expand, current, patch)
  {
    var settings, once := Settings(patch), Patched(expand, current, patch);
    SettingsPlain(patch);
    RunSettles(expand, current, settings);
    NewlineKeepsBody(SetTexts(expand, current, settings));
    SettledText(expand, once, settings);
  }

  // ---------- dollar signs ----------

  /** What stands before the line that a setting adds. */
  function Ahead(text: string): string {
    if TrimSpace(text) == "" then Title() + "\n\n" + Heading()
    else if HasHeading(text) then TrimRight(text, NEWLINE)
    else TrimRight(text, NEWLINE) + "\n\n" + Heading()
  }

  lemma AddedLine(expand: Expansion, text: string, s: Setting)
    requires !AnyMatch(s.key, Split(text, '\n'))
    ensures SetText(expand, text, s) == Ahead(text) + "\n" + Label(s) + "\n"
  {}

  lemma HeadingHasNoKey(text: string, key: string)
    requires !AnyMatch(key, Split(text, '\n'))
    ensures !AnyMatch(key, Split(text + "\n\n" + Heading(), '\n'))
  {
    NoKeyLine(key, "");
    NoKeyLine(key, Heading());
    SplitParted(text, Heading());
    var lines := Split(text, '\n');
    var all := lines + ["", Heading()];
    forall i | 0 <= i < |all| ensures !Matches(key, all[i]) {
      if i < |lines| {
        assert all[i] == lines[i];
      }
    }
  }

  lemma AheadHasNoKey(text: string, key: string)
    requires !AnyMatch(key, Split(text, '\n'))
    ensures !AnyMatch(key, Split(Ahead(text), '\n'))
  {
    if TrimSpace(text) == "" {
      NoKeyLine(key, Title());
      SplitLine(Title(), '\n');
      HeadingHasNoKey(Title(), key);
    } else {
      BodyHasKeys(text, key);
      TrimmedBody(text);
      if !HasHeading(text) {
        HeadingHasNoKey(TrimRight(text, NEWLINE), key);
      }
    }
  }

  lemma ReplacedAtEnd(expand: Expansion, s: Setting, lines: seq<string>)
    requires !AnyMatch(s.key, lines)
    ensures var line := Label(s);
      AnyMatch(s.key, lines + [line, ""])
      && ReplaceLines(expand, s, lines + [line, ""]) == lines + [expand(line, line), ""]
  {
    var all := lines + [Label(s), ""];
    LabelMatches(s);
    NoKeyLine(s.key, "");
    assert all[|lines|] == Label(s);
    var replaced := ReplaceLines(expand, s, all);
    forall i | 0 <= i < |lines| ensures replaced[i] == lines[i] {
      assert all[i] == lines[i] && !Matches(s.key, lines[i]);
    }
  }

  lemma JoinAtEnd(ahead: string, x: string)
    ensures Join(Split(ahead, '\n') + [x, ""], '\n') == ahead + "\n" + x + "\n"
  {
    JoinSplit(ahead, '\n');
    JoinConcat(Split(ahead, '\n'), [x, ""], '\n');
    JoinCons(x, [""], '\n');
    assert [x] + [""] == [x, ""];
  }

  /** A setting whose line is already there replaces it by what the template expands to. */
  lemma ExpandedLine(expand: Expansion, ahead: string, s: Setting)
    requires !AnyMatch(s.key, Split(ahead, '\n')) && Without(Label(s), '\n')
    ensures var line := Label(s);
      SetText(expand, ahead + "\n" + line + "\n", s) == ahead + "\n" + expand(line, line) + "\n"
  {
    SplitLabelled(ahead, Label(s));
    ReplacedAtEnd(expand, s, Split(ahead, '\n'));
    JoinAtEnd(ahead, expand(Label(s), Label(s)));
  }

  /** A patch of one new key can be applied again without a change if and only if the expansion leaves its
      label as it is. */
  lemma NewKeyIdempotentIff(expand: Expansion, current: string, patch: string, s: Setting)
    requires Settings(patch) == [s] && !AnyMatch(s.key, Split(current, '\n'))
    ensures var once := Patched(expand, current, patch);
      Patched(expand, once, patch) == once <==> expand(Label(s), Label(s)) == Label(s)
  {
    SettingsFit(patch);
    assert Settings(patch)[0] == s;
    var ahead, line := Ahead(current), Label(s);
    OneSetting(expand, current, s);
    AddedLine(expand, current, s);
    AheadHasNoKey(current, s.key);
    ExpandedLine(expand, ahead, s);
    OneSetting(expand, ahead + "\n" + line + "\n", s);
    EndsLine(ahead, line);
    EndsLine(ahead, expand(line, line));
    MiddleDiffers(ahead, line, expand(line, line));
  }

  lemma OneSetting(expand: Expansion, text: string, s: Setting)
    ensures SetTexts(expand, text, [s]) == SetText(expand, text, s)
  {
    assert [s][..0] == [] && SetTexts(expand, text, []) == text;
  }

  lemma EndsLine(ahead: string, line: string)
    ensures EnsureTrailingNewline(ahead + "\n" + line + "\n") == ahead + "\n" + line + "\n"
  {}

  lemma MiddleDiffers(ahead: string, a: string, b: string)
    ensures ahead + "\n" + a + "\n" == ahead + "\n" + b + "\n" ==> a == b
  {
    var x, y := ahead + "\n" + a + "\n", ahead + "\n" + b + "\n";
    assert x[|ahead| + 1..|x| - 1] == a && y[|ahead| + 1..|y| - 1] == b;
  }

  // ---------- appending ----------

  function AppendText(current: string, extra: string): string {
    var cur, add := TrimRight(current, NEWLINE), TrimSpace(extra);
    if cur == "" then add + "\n"
    else if add == "" then cur + "\n"
    else cur + "\n\n" + add + "\n"
  }

  lemma AppendedEnd(text: string)
    requires text == "" || text[|text| - 1] != '\n'
    ensures TrimRight(text + "\n", NEWLINE) == text
  {
    assert (text + "\n")[..|text|] == text;
  }

  /** Two parts with a blank line between them. */
  function Parted(a: string, b: string): string {
    if a == "" then b else if b == "" then a else a + "\n\n" + b
  }

  lemma PartedAssociative(a: string, b: string, c: string)
    ensures Parted(Parted(a, b), c) == Parted(a, Parted(b, c))
  {
    if a != "" && b != "" && c != "" {
      assert (a + "\n\n" + b) + "\n\n" + c == a + "\n\n" + (b + "\n\n" + c);
    }
  }

  lemma AppendIsParted(current: string, extra: string)
    ensures AppendText(current, extra) == Parted(TrimRight(current, NEWLINE), TrimSpace(extra)) + "\n"
  {}

  lemma PartedTrimmed(a: string, b: string)
    requires TrimSpace(a) == a && TrimSpace(b) == b
    ensures TrimSpace(Parted(a, b)) == Parted(a, b)
  {
    var p := Parted(a, b);
    if a != "" && b != "" {
      assert p[0] == a[0] && p[|p| - 1] == b[|b| - 1];
    }
    TrimFixed(p, WHITE);
  }

  lemma PartedEnd(cur: string, x: string)
    requires cur == "" || cur[|cur| - 1] != '\n'
    requires x == "" || x[|x| - 1] != '\n'
    ensures TrimRight(Parted(cur, x) + "\n", NEWLINE) == Parted(cur, x)
  {
    var p := Parted(cur, x);
    if x != "" {
      assert p[|p| - 1] == x[|x| - 1];
    }
    AppendedEnd(p);
  }

  /** Appending twice is appending both parts at once, a blank line between them; a blank part adds nothing. */
  lemma AppendTwice(current: string, a: string, b: string)
    ensures AppendText(AppendText(current, a), b) == AppendText(current, Parted(TrimSpace(a), TrimSpace(b)))
  {
    var cur, x, y := TrimRight(current, NEWLINE), TrimSpace(a), TrimSpace(b);
    AppendIsParted(current, a);
    PartedEnd(cur, x);
    AppendIsParted(AppendText(current, a), b);
    PartedAssociative(cur, x, y);
    TrimIdempotent(a, WHITE);
    TrimIdempotent(b, WHITE);
    PartedTrimmed(x, y);
    AppendIsParted(current, Parted(x, y));
  }
}
