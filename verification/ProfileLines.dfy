/** How the settings of a profile patch change the lines of USER.md (internal/profile/store.go, patchUser),
    apart from the text they stand in. */
module ProfileLines {
  import opened Text

  /** One `key: value` line of a patch. */
  datatype Setting = Setting(key: string, value: string)

  function Title(): string { "# USER" }

  function Heading(): string { "## Profile" }

  function LowerHeading(): string { "## profile" }

  function Open(): string { "- **" }

  function Close(): string { "**" }

  function Mark(key: string): string {
    Open() + key + [':'] + Close()
  }

  function Label(s: Setting): string {
    Mark(s.key) + " " + s.value
  }

  /** The line starts with the mark of the key, up to letter case. */
  predicate Matches(key: string, line: string) {
    ToLower(Mark(key)) <= ToLower(line)
  }

  predicate AnyMatch(key: string, lines: seq<string>) {
    exists i | 0 <= i < |lines| :: Matches(key, lines[i])
  }

  // ---------- keys and marks ----------

  lemma LowerMark(key: string)
    requires Without(key, ':')
    ensures Without(ToLower(Open() + key), ':')
    ensures ToLower(Mark(key)) == ToLower(Open() + key) + [':'] + Close()
  {
    assert ToLower(Close()) == Close();
  }

  /** Keys have no colon, so a line is the line of one key only. */
  lemma OneKey(k: string, l: string, line: string)
    requires Without(k, ':') && Without(l, ':')
    requires Matches(k, line) && Matches(l, line)
    ensures EqualFold(k, l)
  {
    LowerMark(k);
    LowerMark(l);
    var low, a, b := ToLower(line), ToLower(Open() + k), ToLower(Open() + l);
    var x, y := low[|a| + 1..], low[|b| + 1..];
    assert low == a + [':'] + x && low == b + [':'] + y;
    CutUnique(a, x, b, y, ':');
    ToLowerConcat(Open(), k);
    ToLowerConcat(Open(), l);
    assert a[|Open()|..] == ToLower(k) && b[|Open()|..] == ToLower(l);
  }

  lemma SameKey(k: string, l: string)
    requires EqualFold(k, l)
    ensures ToLower(Mark(k)) == ToLower(Mark(l))
  {
    ToLowerConcat(Open() + k, [':'] + Close());
    ToLowerConcat(Open() + l, [':'] + Close());
    ToLowerConcat(Open(), k);
    ToLowerConcat(Open(), l);
    assert Mark(k) == (Open() + k) + ([':'] + Close());
    assert Mark(l) == (Open() + l) + ([':'] + Close());
  }

  lemma LabelMatches(s: Setting)
    ensures Matches(s.key, Label(s))
  {
    ToLowerConcat(Mark(s.key), " " + s.value);
    assert Label(s) == Mark(s.key) + (" " + s.value);
  }

  /** The lines a patch adds around its labels are no key's lines. */
  lemma NoKeyLine(key: string, line: string)
    requires line == "" || line[0] != '-'
    ensures !Matches(key, line)
  {
    assert ToLower(Mark(key))[0] == '-';
  }

  // ---------- settings on lines ----------

  predicate ColonFree(settings: seq<Setting>) {
    forall i | 0 <= i < |settings| :: Without(settings[i].key, ':')
  }

  /** A line after one setting. */
  function Set(s: Setting, line: string): string {
    if Matches(s.key, line) then Label(s) else line
  }

  /** A line after a sequence of settings. */
  function SetAll(settings: seq<Setting>, line: string): string {
    if settings == [] then line
    else Set(settings[|settings| - 1], SetAll(settings[..|settings| - 1], line))
  }

  function SetLines(s: Setting, lines: seq<string>): seq<string> {
    seq(|lines|, i requires 0 <= i < |lines| => Set(s, lines[i]))
  }

  function SetAllLines(settings: seq<Setting>, lines: seq<string>): seq<string> {
    seq(|lines|, i requires 0 <= i < |lines| => SetAll(settings, lines[i]))
  }

  /** A setting leaves every line with the key it had. */
  lemma SetKeepsKey(s: Setting, line: string, key: string)
    requires Without(s.key, ':') && Without(key, ':')
    ensures Matches(key, Set(s, line)) <==> Matches(key, line)
  {
    if Matches(s.key, line) {
      LabelMatches(s);
      if Matches(key, line) {
        OneKey(key, s.key, line);
        SameKey(key, s.key);
      }
      if Matches(key, Label(s)) {
        OneKey(key, s.key, Label(s));
        SameKey(key, s.key);
      }
    }
  }

  lemma {:induction false} SetAllKeepsKey(settings: seq<Setting>, line: string, key: string)
    requires ColonFree(settings) && Without(key, ':')
    ensures Matches(key, SetAll(settings, line)) <==> Matches(key, line)
  {
    if settings != [] {
      var init, last := settings[..|settings| - 1], settings[|settings| - 1];
      SetAllKeepsKey(init, line, key);
      SetKeepsKey(last, SetAll(init, line), key);
    }
  }

  /** No setting after the i-th is for the same key. */
  predicate IsLast(settings: seq<Setting>, i: nat)
    requires i < |settings|
  {
    forall j | i < j < |settings| :: !EqualFold(settings[j].key, settings[i].key)
  }

  /** The last value given for a key is the one its lines show. */
  lemma {:induction false} SetAllShowsLast(settings: seq<Setting>, i: nat, line: string)
    requires ColonFree(settings) && i < |settings| && IsLast(settings, i)
    requires Matches(settings[i].key, line)
    ensures SetAll(settings, line) == Label(settings[i])
  {
    var init, last := settings[..|settings| - 1], settings[|settings| - 1];
    SetAllKeepsKey(init, line, settings[i].key);
    if i < |settings| - 1 {
      assert forall j | 0 <= j < |init| :: init[j] == settings[j];
      SetAllShowsLast(init, i, line);
      if Matches(last.key, SetAll(init, line)) {
        OneKey(last.key, settings[i].key, SetAll(init, line));
      }
    }
  }

  /** Lines no later run of the same settings changes. */
  predicate Settled(settings: seq<Setting>, lines: seq<string>) {
    forall i | 0 <= i < |lines| :: SetAll(settings, lines[i]) == lines[i]
  }

  predicate AllPresent(settings: seq<Setting>, lines: seq<string>) {
    forall i | 0 <= i < |settings| :: AnyMatch(settings[i].key, lines)
  }

  /** The body of a profile after one setting. `blank` and `headed` say whether the text before it is blank
      and whether it has the profile heading. */
  function Place(s: Setting, body: seq<string>, blank: bool, headed: bool): seq<string> {
    if AnyMatch(s.key, body) then SetLines(s, body)
    else if blank then [Title(), "", Heading(), Label(s)]
    else if headed then body + [Label(s)]
    else body + ["", Heading(), Label(s)]
  }

  /** What one setting does to a line at a time that the earlier settings agree with. */
  lemma SetSettles(settings: seq<Setting>, s: Setting, line: string)
    requires ColonFree(settings) && Without(s.key, ':')
    requires SetAll(settings, line) == line
    ensures SetAll(settings + [s], Set(s, line)) == Set(s, line)
  {
    assert (settings + [s])[..|settings|] == settings;
    if Matches(s.key, line) {
      LabelSettled(settings, s);
    }
  }

  lemma LabelSettled(settings: seq<Setting>, s: Setting)
    requires ColonFree(settings) && Without(s.key, ':')
    ensures SetAll(settings + [s], Label(s)) == Label(s)
  {
    assert (settings + [s])[..|settings|] == settings;
    LabelMatches(s);
    SetAllKeepsKey(settings, Label(s), s.key);
  }

  lemma {:induction false} NoKeySettled(settings: seq<Setting>, line: string)
    requires line == "" || line[0] != '-'
    ensures SetAll(settings, line) == line
  {
    if settings != [] {
      NoKeySettled(settings[..|settings| - 1], line);
      NoKeyLine(settings[|settings| - 1].key, line);
    }
  }

  lemma PlaceSettles(settings: seq<Setting>, s: Setting, body: seq<string>, blank: bool, headed: bool)
    requires ColonFree(settings) && Without(s.key, ':')
    requires Settled(settings, body)
    ensures Settled(settings + [s], Place(s, body, blank, headed))
  {
    var after := Place(s, body, blank, headed);
    forall i | 0 <= i < |after| ensures SetAll(settings + [s], after[i]) == after[i] {
      if i < |body| && (AnyMatch(s.key, body) || !blank) {
        SetSettles(settings, s, body[i]);
      } else if i < |after| - 1 {
        NoKeySettled(settings + [s], after[i]);
      } else {
        LabelSettled(settings, s);
      }
    }
  }

  /** A setting puts its key into the body and takes none out. */
  lemma PlaceKeepsKeys(s: Setting, body: seq<string>, blank: bool, headed: bool, key: string)
    requires Without(s.key, ':') && Without(key, ':')
    requires blank ==> !AnyMatch(key, body)
    ensures AnyMatch(s.key, Place(s, body, blank, headed))
    ensures AnyMatch(key, body) ==> AnyMatch(key, Place(s, body, blank, headed))
  {
    var after := Place(s, body, blank, headed);
    LabelMatches(s);
    if AnyMatch(s.key, body) {
      var i :| 0 <= i < |body| && Matches(s.key, body[i]);
      assert Matches(s.key, after[i]);
    } else {
      assert Matches(s.key, after[|after| - 1]);
    }
    if AnyMatch(key, body) {
      var i :| 0 <= i < |body| && Matches(key, body[i]);
      SetKeepsKey(s, body[i], key);
      assert Matches(key, after[i]);
    }
  }

  // ---------- what settings leave alone ----------

  /** The line is of no key in the patch. */
  predicate IsOther(settings: seq<Setting>, line: string) {
    forall i | 0 <= i < |settings| :: !Matches(settings[i].key, line)
  }

  /** The lines of no key in the patch, in order. */
  function Others(settings: seq<Setting>, lines: seq<string>): seq<string> {
    if lines == [] then []
    else
      var init, last := Others(settings, lines[..|lines| - 1]), lines[|lines| - 1];
      if IsOther(settings, last) then init + [last] else init
  }

  lemma OthersNext(settings: seq<Setting>, lines: seq<string>, line: string)
    ensures Others(settings, lines + [line])
         == if IsOther(settings, line) then Others(settings, lines) + [line] else Others(settings, lines)
  {
    assert (lines + [line])[..|lines|] == lines;
  }

  lemma {:induction false} OthersSet(settings: seq<Setting>, s: Setting, lines: seq<string>)
    requires ColonFree(settings) && s in settings
    ensures Others(settings, SetLines(s, lines)) == Others(settings, lines)
  {
    if lines != [] {
      var init, last := lines[..|lines| - 1], lines[|lines| - 1];
      OthersSet(settings, s, init);
      assert SetLines(s, lines) == SetLines(s, init) + [Set(s, last)];
      OthersNext(settings, SetLines(s, init), Set(s, last));
      forall i | 0 <= i < |settings|
        ensures Matches(settings[i].key, Set(s, last)) <==> Matches(settings[i].key, last)
      {
        SetKeepsKey(s, last, settings[i].key);
      }
      assert IsOther(settings, Set(s, last)) <==> IsOther(settings, last);
      if Matches(s.key, last) {
        assert !IsOther(settings, last);
      }
    }
  }

  lemma HeadingIsOther(settings: seq<Setting>)
    ensures IsOther(settings, "") && IsOther(settings, Heading()) && IsOther(settings, Title())
  {
    forall i | 0 <= i < |settings|
      ensures !Matches(settings[i].key, "") && !Matches(settings[i].key, Heading()) && !Matches(settings[i].key, Title())
    {
      NoKeyLine(settings[i].key, "");
      NoKeyLine(settings[i].key, Heading());
      NoKeyLine(settings[i].key, Title());
    }
  }

  /** A setting keeps the other lines, or adds the heading, or starts a blank profile over. */
  lemma PlaceKeepsOthers(settings: seq<Setting>, s: Setting, body: seq<string>, blank: bool, headed: bool)
    requires ColonFree(settings) && s in settings
    ensures Others(settings, Place(s, body, blank, headed))
         == if AnyMatch(s.key, body) then Others(settings, body)
            else if blank then [Title(), "", Heading()]
            else if headed then Others(settings, body)
            else Others(settings, body) + ["", Heading()]
  {
    if AnyMatch(s.key, body) {
      OthersSet(settings, s, body);
    } else {
      LabelMatches(s);
      assert !IsOther(settings, Label(s));
      HeadingIsOther(settings);
      if blank {
        OthersFour(settings, Title(), "", Heading(), Label(s));
      } else if headed {
        OthersNext(settings, body, Label(s));
      } else {
        OthersThree(settings, body, "", Heading(), Label(s));
      }
    }
  }

  lemma OthersThree(settings: seq<Setting>, body: seq<string>, a: string, b: string, c: string)
    requires IsOther(settings, a) && IsOther(settings, b) && !IsOther(settings, c)
    ensures Others(settings, body + [a, b, c]) == Others(settings, body) + [a, b]
  {
    OthersNext(settings, body, a);
    OthersNext(settings, body + [a], b);
    OthersNext(settings, body + [a] + [b], c);
    assert body + [a, b, c] == body + [a] + [b] + [c];
  }

  lemma OthersFour(settings: seq<Setting>, z: string, a: string, b: string, c: string)
    requires IsOther(settings, z) && IsOther(settings, a) && IsOther(settings, b) && !IsOther(settings, c)
    ensures Others(settings, [z, a, b, c]) == [z, a, b]
  {
    OthersNext(settings, [], z);
    OthersThree(settings, [z], a, b, c);
    assert [] + [z] == [z] && [z] + [a, b, c] == [z, a, b, c];
  }

  // ---------- how often a key occurs ----------

  function Count(key: string, lines: seq<string>): nat {
    if lines == [] then 0
    else
      var n := Count(key, lines[..|lines| - 1]);
      if Matches(key, lines[|lines| - 1]) then n + 1 else n
  }

  lemma CountNext(key: string, lines: seq<string>, line: string)
    ensures Count(key, lines + [line]) == if Matches(key, line) then Count(key, lines) + 1 else Count(key, lines)
  {
    assert (lines + [line])[..|lines|] == lines;
  }

  lemma {:induction false} CountAny(key: string, lines: seq<string>)
    ensures Count(key, lines) > 0 <==> AnyMatch(key, lines)
  {
    if lines != [] {
      var init, last := lines[..|lines| - 1], lines[|lines| - 1];
      CountAny(key, init);
      assert forall i | 0 <= i < |init| :: init[i] == lines[i];
    }
  }

  lemma {:induction false} CountSet(key: string, s: Setting, lines: seq<string>)
    requires Without(s.key, ':') && Without(key, ':')
    ensures Count(key, SetLines(s, lines)) == Count(key, lines)
  {
    if lines != [] {
      var init, last := lines[..|lines| - 1], lines[|lines| - 1];
      CountSet(key, s, init);
      assert SetLines(s, lines) == SetLines(s, init) + [Set(s, last)];
      CountNext(key, SetLines(s, init), Set(s, last));
      SetKeepsKey(s, last, key);
    }
  }

  lemma LabelKey(s: Setting, key: string)
    requires Without(s.key, ':') && Without(key, ':')
    ensures Matches(key, Label(s)) <==> EqualFold(key, s.key)
  {
    LabelMatches(s);
    if Matches(key, Label(s)) {
      OneKey(key, s.key, Label(s));
    }
    if EqualFold(key, s.key) {
      SameKey(key, s.key);
    }
  }

  /** A setting adds one line for a key that has none and changes no other count. */
  lemma PlaceCounts(s: Setting, body: seq<string>, blank: bool, headed: bool, key: string)
    requires Without(s.key, ':') && Without(key, ':')
    requires blank ==> !AnyMatch(key, body)
    ensures Count(key, Place(s, body, blank, headed))
         == if EqualFold(key, s.key) && !AnyMatch(key, body) then 1 else Count(key, body)
  {
    CountAny(key, body);
    if EqualFold(key, s.key) {
      SameKey(key, s.key);
    }
    if AnyMatch(s.key, body) {
      CountSet(key, s, body);
    } else {
      LabelKey(s, key);
      NoKeyLine(key, "");
      NoKeyLine(key, Heading());
      NoKeyLine(key, Title());
      if blank {
        CountNext(key, [], Title());
        CountThree(key, [Title()], "", Heading(), Label(s));
        assert [] + [Title()] == [Title()] && [Title()] + ["", Heading(), Label(s)] == [Title(), "", Heading(), Label(s)];
      } else if headed {
        CountNext(key, body, Label(s));
      } else {
        CountThree(key, body, "", Heading(), Label(s));
      }
    }
  }

  lemma CountThree(key: string, body: seq<string>, a: string, b: string, c: string)
    requires !Matches(key, a) && !Matches(key, b)
    ensures Count(key, body + [a, b, c]) == if Matches(key, c) then Count(key, body) + 1 else Count(key, body)
  {
    CountNext(key, body, a);
    CountNext(key, body + [a], b);
    CountNext(key, body + [a] + [b], c);
    assert body + [a, b, c] == body + [a] + [b] + [c];
  }
}
