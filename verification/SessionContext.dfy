/** The rolling context of a session (internal/sessions/manager.go): a bounded window of
    recent messages, a count of the messages that left it, and a byte-bounded summary. */
module SessionContext {
  import opened Text

  const CONTEXT_STATE_VERSION := 1

  datatype ContextBudget = ContextBudget(historyLimit: int, summaryMaxChars: int, summaryLineMaxChars: int)

  datatype ContextMessage = ContextMessage(role: string, text: string)

  /** The derived part of a stored session entry. */
  datatype Cache = Cache(recent: seq<ContextMessage>, summarized: int, summary: string)

  const EMPTY_CACHE := Cache([], 0, "")

  function NormalizeBudget(b: ContextBudget): (r: ContextBudget)
    ensures Normalised(r)
    ensures r.historyLimit == (if b.historyLimit > 0 then b.historyLimit else 24)
    ensures r.summaryMaxChars == (if b.summaryMaxChars > 0 then b.summaryMaxChars else 1800)
    ensures r.summaryLineMaxChars == (if b.summaryLineMaxChars > 0 then b.summaryLineMaxChars else 180)
  {
    ContextBudget(
      if b.historyLimit <= 0 then 24 else b.historyLimit,
      if b.summaryMaxChars <= 0 then 1800 else b.summaryMaxChars,
      if b.summaryLineMaxChars <= 0 then 180 else b.summaryLineMaxChars)
  }

  predicate Normalised(b: ContextBudget) {
    b.historyLimit > 0 && b.summaryMaxChars > 0 && b.summaryLineMaxChars > 0
  }

  // ---------- the signature a cache is trusted by ----------

  function Signature(b: ContextBudget): string {
    "v" + Itoa(CONTEXT_STATE_VERSION) + ":h" + Itoa(b.historyLimit)
    + ":s" + Itoa(b.summaryMaxChars) + ":l" + Itoa(b.summaryLineMaxChars)
  }

  /** Equal signatures mean equal budgets, so a cache is never trusted under a foreign one. */
  lemma SignatureInjective(a: ContextBudget, b: ContextBudget)
    requires Signature(a) == Signature(b)
    ensures a == b
  {
    var v := "v" + Itoa(CONTEXT_STATE_VERSION);
    SignatureParts(a, v);
    SignatureParts(b, v);
    var ta, tb := Tail(a.summaryMaxChars, a.summaryLineMaxChars), Tail(b.summaryMaxChars, b.summaryLineMaxChars);
    CutUnique(v, Number('h', a.historyLimit) + [':'] + ta, v, Number('h', b.historyLimit) + [':'] + tb, ':');
    CutUnique(Number('h', a.historyLimit), ta, Number('h', b.historyLimit), tb, ':');
    CutUnique(Number('s', a.summaryMaxChars), Number('l', a.summaryLineMaxChars),
              Number('s', b.summaryMaxChars), Number('l', b.summaryLineMaxChars), ':');
    NumberInjective('h', a.historyLimit, b.historyLimit);
    NumberInjective('s', a.summaryMaxChars, b.summaryMaxChars);
    NumberInjective('l', a.summaryLineMaxChars, b.summaryLineMaxChars);
  }

  function Number(name: char, n: int): (s: string)
    ensures name != ':' ==> Without(s, ':')
  {
    [name] + Itoa(n)
  }

  function Tail(s: int, l: int): string {
    Number('s', s) + [':'] + Number('l', l)
  }

  lemma NumberInjective(name: char, m: int, n: int)
    requires Number(name, m) == Number(name, n)
    ensures m == n
  {
    assert Number(name, m)[1..] == Itoa(m) && Number(name, n)[1..] == Itoa(n);
    ItoaInjective(m, n);
  }

  lemma SignatureParts(b: ContextBudget, v: string)
    requires v == "v" + Itoa(CONTEXT_STATE_VERSION)
    ensures Signature(b) == v + [':'] + (Number('h', b.historyLimit) + [':'] + Tail(b.summaryMaxChars, b.summaryLineMaxChars))
    ensures Without(v, ':')
  {
    SeparatorsApart(v, Itoa(b.historyLimit), Itoa(b.summaryMaxChars), Itoa(b.summaryLineMaxChars));
  }

  lemma SeparatorsApart(v: string, h: string, s: string, l: string)
    ensures v + ":h" + h + ":s" + s + ":l" + l
         == v + [':'] + (['h'] + h + [':'] + (['s'] + s + [':'] + (['l'] + l)))
  {
    assert ":h" == [':'] + ['h'] && ":s" == [':'] + ['s'] && ":l" == [':'] + ['l'];
  }

  // ---------- which messages count, and how they are kept ----------

  predicate IsContextMessage(role: string, text: string, eventType: string) {
    && (IsBlank(eventType) || TrimSpace(eventType) == "message")
    && ToLower(TrimSpace(role)) in {"user", "assistant"}
    && !IsBlank(text)
  }

  function NormalizeMessage(role: string, text: string): ContextMessage {
    ContextMessage(ToLower(TrimSpace(role)), TrimSpace(text))
  }

  function SummaryRole(role: string): string {
    if ToLower(TrimSpace(role)) == "assistant" then "Assistant" else "User"
  }

  /** strings.Fields, with the word read so far */
  function Fields(s: string, word: string := ""): (words: seq<string>)
    requires IsOneLine(word)
    ensures forall i | 0 <= i < |words| :: IsOneLine(words[i])
  {
    if s != "" && s[0] !in WHITE then Fields(s[1..], word + [s[0]])
    else
      var done := if word == "" then [] else [word];
      if s == "" then done else done + Fields(s[1..])
  }

  predicate IsOneLine(s: string) {
    Without(s, '\n')
  }

  lemma {:induction false} JoinedWordsAreOneLine(words: seq<string>)
    requires forall i | 0 <= i < |words| :: IsOneLine(words[i])
    ensures IsOneLine(Join(words, ' '))
  {
    if |words| > 1 {
      JoinedWordsAreOneLine(words[1..]);
    }
  }

  predicate IsWord(w: string) {
    w != "" && forall i | 0 <= i < |w| :: w[i] !in WHITE
  }

  predicate AreWords(words: seq<string>) {
    forall i | 0 <= i < |words| :: IsWord(words[i])
  }

  lemma {:induction false} FieldsAreWords(s: string, word: string)
    requires IsOneLine(word) && (word == "" || IsWord(word))
    ensures AreWords(Fields(s, word))
    decreases |s|
  {
    if s != "" && s[0] !in WHITE {
      FieldsAreWords(s[1..], word + [s[0]]);
    } else if s != "" {
      FieldsAreWords(s[1..], "");
    }
  }

  /** A text without white space is one word. */
  lemma {:induction false} OneWord(s: string, word: string)
    requires IsOneLine(word) && word + s != "" && forall i | 0 <= i < |s| :: s[i] !in WHITE
    ensures Fields(s, word) == [word + s]
    decreases |s|
  {
    if s == "" {
      assert word + s == word;
    } else {
      assert word + s == (word + [s[0]]) + s[1..];
      OneWord(s[1..], word + [s[0]]);
    }
  }

  /** White space separates: the words before it, and the words behind it. */
  lemma {:induction false} FieldsSeparated(a: string, w: char, b: string, word: string)
    requires IsOneLine(word) && w in WHITE
    ensures Fields(a + [w] + b, word) == Fields(a, word) + Fields(b)
    decreases |a|
  {
    var s := a + [w] + b;
    if a == "" {
      assert s == [w] + b && s[1..] == b;
    } else {
      assert s[0] == a[0] && s[1..] == a[1..] + [w] + b;
      if a[0] !in WHITE {
        FieldsSeparated(a[1..], w, b, word + [a[0]]);
      } else {
        FieldsSeparated(a[1..], w, b, "");
      }
    }
  }

  lemma {:induction false} FieldsOfWhite(s: string)
    requires AllIn(s, WHITE)
    ensures Fields(s) == []
    decreases |s|
  {
    if s != "" {
      FieldsOfWhite(s[1..]);
    }
  }

  /** Words joined by single spaces are found again. */
  lemma {:induction false} FieldsOfJoined(words: seq<string>)
    requires AreWords(words)
    ensures Fields(Join(words, ' ')) == words
  {
    if |words| == 1 {
      OneWord(words[0], "");
      assert "" + words[0] == words[0];
    } else if |words| > 1 {
      FieldsOfJoined(words[1..]);
      FieldsSeparated(words[0], ' ', Join(words[1..], ' '), "");
      OneWord(words[0], "");
      assert "" + words[0] == words[0] && words == [words[0]] + words[1..];
    }
  }

  lemma {:induction false} FieldsAround(pre: string, s: string, post: string)
    requires AllIn(pre, WHITE) && AllIn(post, WHITE)
    ensures Fields(pre + s + post) == Fields(s)
    decreases |pre| + |post|
  {
    if pre != "" {
      assert pre + s + post == "" + [pre[0]] + (pre[1..] + s + post);
      FieldsSeparated("", pre[0], pre[1..] + s + post, "");
      FieldsAround(pre[1..], s, post);
    } else if post != "" {
      assert pre + s + post == s + [post[0]] + post[1..];
      FieldsSeparated(s, post[0], post[1..], "");
      FieldsOfWhite(post[1..]);
    } else {
      assert pre + s + post == s;
    }
  }

  /** White space around a text holds no words. */
  lemma FieldsOfTrimmed(s: string)
    ensures Fields(TrimSpace(s)) == Fields(s)
  {
    var pre, post := TrimParts(s, WHITE);
    FieldsAround(pre, TrimSpace(s), post);
  }

  function Truncate(compacted: string, maxLen: int): string {
    if maxLen <= 0 || |compacted| <= maxLen then compacted
    else if maxLen <= 3 then compacted[..maxLen]
    else compacted[..maxLen - 3] + "..."
  }

  function CompactText(text: string, maxLen: int): string {
    Truncate(Join(Fields(TrimSpace(text)), ' '), maxLen)
  }

  function Label(role: string): string {
    "- " + SummaryRole(role) + ": "
  }

  function SummaryLine(msg: ContextMessage, b: ContextBudget): string {
    Label(msg.role) + CompactText(msg.text, b.summaryLineMaxChars)
  }

  predicate IsLine(l: string) {
    IsOneLine(l) && l != ""
  }

  lemma TruncateShape(compacted: string, maxLen: int)
    requires maxLen > 0 && IsOneLine(compacted)
    ensures IsOneLine(Truncate(compacted, maxLen)) && |Truncate(compacted, maxLen)| <= maxLen
  {}

  lemma LabelShape(role: string)
    ensures IsLine(Label(role)) && Label(role)[0] == '-' && |Label(role)| <= 13
  {
    assert SummaryRole(role) == "Assistant" || SummaryRole(role) == "User";
  }

  /** A summary line is one non-blank line of bounded length. */
  lemma SummaryLineShape(msg: ContextMessage, b: ContextBudget)
    requires Normalised(b)
    ensures var line := SummaryLine(msg, b);
      IsLine(line) && line[0] == '-' && |line| <= b.summaryLineMaxChars + 13
  {
    LabelShape(msg.role);
    var words := Fields(TrimSpace(msg.text));
    JoinedWordsAreOneLine(words);
    TruncateShape(Join(words, ' '), b.summaryLineMaxChars);
  }

  lemma LowerRole(role: string)
    requires role == "user" || role == "assistant"
    ensures ToLower(TrimSpace(role)) == role
  {
    TrimFixed(role, WHITE);
    assert ToLower(role) == role;
  }

  lemma LabelOf(role: string)
    requires role == "user" || role == "assistant"
    ensures Label(role) == if role == "assistant" then "- Assistant: " else "- User: "
  {
    LowerRole(role);
  }

  /** A text cut at a byte limit, the last three bytes then being dots where there is room. */
  predicate IsCutTo(cut: string, text: string, max: int)
    requires max > 0
  {
    if |text| <= max then cut == text
    else |cut| == max && if max <= 3 then cut <= text
                         else cut[..max - 3] <= text && cut[max - 3..] == "..."
  }

  lemma TruncateCuts(text: string, max: int)
    requires max > 0
    ensures IsCutTo(Truncate(text, max), text, max)
  {}

  /** A summary line names the speaker and holds the words of the message, joined by single spaces and cut
      at the byte limit. */
  lemma SummaryLineHolds(msg: ContextMessage, b: ContextBudget)
    requires Normalised(b) && (msg.role == "user" || msg.role == "assistant")
    ensures exists cut | IsCutTo(cut, Join(Fields(msg.text), ' '), b.summaryLineMaxChars) ::
      SummaryLine(msg, b) == (if msg.role == "assistant" then "- Assistant: " else "- User: ") + cut
  {
    LabelOf(msg.role);
    FieldsOfTrimmed(msg.text);
    TruncateCuts(Join(Fields(msg.text), ' '), b.summaryLineMaxChars);
    assert SummaryLine(msg, b) == Label(msg.role) + Truncate(Join(Fields(msg.text), ' '), b.summaryLineMaxChars);
  }

  /** A message of words that fit is on its line as it is. */
  lemma SummaryLineOfWords(msg: ContextMessage, words: seq<string>, b: ContextBudget)
    requires Normalised(b) && (msg.role == "user" || msg.role == "assistant")
    requires AreWords(words) && msg.text == Join(words, ' ') && |msg.text| <= b.summaryLineMaxChars
    ensures SummaryLine(msg, b) == (if msg.role == "assistant" then "- Assistant: " else "- User: ") + msg.text
  {
    FieldsOfJoined(words);
    FieldsOfTrimmed(msg.text);
    LabelOf(msg.role);
  }

  // ---------- the summary ----------

  function Marker(): string { "[older summary trimmed]" }

  function LastBytes(s: string, n: nat): string
    requires n <= |s|
  {
    s[|s| - n..]
  }

  function DropPartialLine(keep: string): string {
    var idx := IndexOf(keep, '\n');
    if idx + 1 < |keep| then keep[idx + 1..] else keep
  }

  function AppendSummary(existing: string, msg: ContextMessage, b: ContextBudget): string
    requires Normalised(b)
  {
    AppendLine(existing, SummaryLine(msg, b), b.summaryMaxChars, Marker())
  }

  function AppendLine(existing: string, line: string, max: nat, marker: string): string {
    if IsBlank(existing) then line else
      var summary := existing + "\n" + line;
      if |summary| <= max then summary else TrimSummary(summary, max, marker)
  }

  function TrimSummary(summary: string, max: nat, marker: string): string
    requires max < |summary|
  {
    var keep := DropPartialLine(LastBytes(summary, max));
    var maxKeep := max - |marker| - 1;
    if |keep| <= maxKeep then marker + "\n" + keep
    else if maxKeep <= 0 then marker
    else marker + "\n" + DropPartialLine(LastBytes(keep, maxKeep))
  }

  /** The summary after a run of promotions, by their lines. */
  function Summarise(lines: seq<string>, max: nat, marker: string): string {
    if lines == [] then "" else
      AppendLine(Summarise(lines[..|lines| - 1], max, marker), lines[|lines| - 1], max, marker)
  }

  function LinesOf(b: ContextBudget, promoted: seq<ContextMessage>): (lines: seq<string>)
    ensures |lines| == |promoted|
  {
    seq(|promoted|, i requires 0 <= i < |promoted| => SummaryLine(promoted[i], b))
  }

  function SummaryOf(b: ContextBudget, promoted: seq<ContextMessage>): string
    requires Normalised(b)
  {
    Summarise(LinesOf(b, promoted), b.summaryMaxChars, Marker())
  }

  predicate IsSuffix(a: string, s: string) {
    |a| <= |s| && s[|s| - |a|..] == a
  }

  predicate IsMarker(marker: string) {
    IsLine(marker) && marker[0] == '['
  }

  predicate AreLines(lines: seq<string>) {
    forall i | 0 <= i < |lines| :: IsLine(lines[i]) && lines[i][0] == '-'
  }

  lemma LinesOfAreLines(b: ContextBudget, promoted: seq<ContextMessage>)
    requires Normalised(b)
    ensures AreLines(LinesOf(b, promoted))
    ensures forall i | 0 <= i < |promoted| :: |LinesOf(b, promoted)[i]| <= b.summaryLineMaxChars + 13
    ensures IsMarker(Marker()) && |Marker()| == 23
  {
    forall i | 0 <= i < |promoted|
      ensures IsLine(LinesOf(b, promoted)[i]) && LinesOf(b, promoted)[i][0] == '-'
      ensures |LinesOf(b, promoted)[i]| <= b.summaryLineMaxChars + 13
    {
      SummaryLineShape(promoted[i], b);
    }
  }

  /** The summary is all of `all`, or one leading marker, alone or with a proper suffix of `all`. */
  predicate MarkedSuffix(summary: string, all: string, marker: string) {
    || summary == all
    || (all != "" && summary == marker)
    || (marker + "\n" <= summary
        && IsSuffix(summary[|marker| + 1..], all) && |summary| - |marker| - 1 < |all|)
  }

  /** Cutting a marked text at a byte, then at the next line, never keeps a piece of the marker. */
  lemma CutMarked(rest: string, n: nat, marker: string)
    requires IsMarker(marker) && rest != "" && n <= |marker| + 1 + |rest|
    ensures IsSuffix(DropPartialLine(LastBytes(marker + "\n" + rest, n)), rest)
  {
    var s := marker + "\n" + rest;
    var keep := LastBytes(s, n);
    if n > |rest| {
      var cut := |marker| - (n - |rest| - 1);
      var tail := marker[cut..];
      assert keep == tail + ['\n'] + rest;
      assert forall i | 0 <= i < |tail| :: tail[i] == marker[cut + i];
      IndexOfCut(tail, '\n', rest);
      assert keep[|tail| + 1..] == rest;
    } else {
      assert keep == rest[|rest| - n..];
    }
  }

  lemma SuffixOfSuffix(a: string, b: string, c: string)
    requires IsSuffix(a, b) && IsSuffix(b, c)
    ensures IsSuffix(a, c)
  {
    assert c[|c| - |a|..] == c[|c| - |b|..][|b| - |a|..];
  }

  lemma CutIsSuffix(s: string, n: nat)
    requires n <= |s|
    ensures IsSuffix(DropPartialLine(LastBytes(s, n)), s) && |DropPartialLine(LastBytes(s, n))| <= n
  {
    SuffixOfSuffix(DropPartialLine(LastBytes(s, n)), LastBytes(s, n), s);
  }

  lemma MarkSuffix(keep: string, all: string, marker: string)
    requires IsSuffix(keep, all) && |keep| < |all|
    ensures MarkedSuffix(marker + "\n" + keep, all, marker)
  {
    assert (marker + "\n" + keep)[|marker| + 1..] == keep;
  }

  /** All lines, or the marker and a proper, non-empty suffix of them. */
  predicate WholeOrTail(summary: string, all: string, marker: string) {
    || summary == all
    || (marker + "\n" < summary && IsSuffix(summary[|marker| + 1..], all) && |summary| - |marker| - 1 < |all|)
  }

  /** What a summary cut at max bytes keeps is a proper suffix of all lines. */
  lemma CutSummary(summary: string, max: nat, all: string, marker: string)
    requires IsMarker(marker) && all != "" && max < |summary|
    requires WholeOrTail(summary, all, marker)
    ensures var keep := DropPartialLine(LastBytes(summary, max)); IsSuffix(keep, all) && |keep| < |all|
  {
    if summary == all {
      CutIsSuffix(summary, max);
    } else {
      var rest := summary[|marker| + 1..];
      assert summary == marker + "\n" + rest;
      CutMarked(rest, max, marker);
      SuffixOfSuffix(DropPartialLine(LastBytes(summary, max)), rest, all);
    }
  }

  lemma TrimSummaryMarked(summary: string, max: nat, all: string, marker: string)
    requires IsMarker(marker) && all != "" && max < |summary|
    requires WholeOrTail(summary, all, marker)
    ensures MarkedSuffix(TrimSummary(summary, max, marker), all, marker)
  {
    CutSummary(summary, max, all, marker);
    var keep := DropPartialLine(LastBytes(summary, max));
    var maxKeep := max - |marker| - 1;
    if |keep| <= maxKeep {
      MarkSuffix(keep, all, marker);
    } else if 0 < maxKeep {
      CutIsSuffix(keep, maxKeep);
      var kept := DropPartialLine(LastBytes(keep, maxKeep));
      SuffixOfSuffix(kept, keep, all);
      MarkSuffix(kept, all, marker);
    }
  }

  lemma MarkedNotBlank(summary: string, all: string, marker: string)
    requires IsMarker(marker) && all != "" && all[0] == '-' && MarkedSuffix(summary, all, marker)
    ensures !IsBlank(summary)
  {
    assert summary[0] !in WHITE;
  }

  lemma ExtendMarked(existing: string, line: string, all: string, marker: string)
    requires IsMarker(marker) && IsLine(line) && all != ""
    requires MarkedSuffix(existing, all, marker)
    ensures WholeOrTail(existing + "\n" + line, all + "\n" + line, marker)
  {
    if existing != all {
      var rest := if existing == marker then line else existing[|marker| + 1..] + "\n" + line;
      var summary, all' := existing + "\n" + line, all + "\n" + line;
      assert summary == marker + "\n" + rest;
      assert summary[|marker| + 1..] == rest;
      assert all'[|all'| - |rest|..] == rest;
    }
  }

  lemma AppendLineMarked(existing: string, line: string, max: nat, all: string, marker: string)
    requires IsMarker(marker) && IsLine(line) && all != "" && all[0] == '-'
    requires MarkedSuffix(existing, all, marker)
    ensures MarkedSuffix(AppendLine(existing, line, max, marker), all + "\n" + line, marker)
  {
    MarkedNotBlank(existing, all, marker);
    ExtendMarked(existing, line, all, marker);
    var summary := existing + "\n" + line;
    if |summary| > max {
      TrimSummaryMarked(summary, max, all + "\n" + line, marker);
    }
  }

  lemma {:induction false} SummariseMarked(lines: seq<string>, max: nat, marker: string)
    requires IsMarker(marker) && AreLines(lines) && lines != []
    ensures var all := Join(lines, '\n');
      all != "" && all[0] == '-' && MarkedSuffix(Summarise(lines, max, marker), all, marker)
  {
    var init, line := lines[..|lines| - 1], lines[|lines| - 1];
    assert lines == init + [line];
    if init != [] {
      SummariseMarked(init, max, marker);
      JoinConcat(init, [line], '\n');
      AppendLineMarked(Summarise(init, max, marker), line, max, Join(init, '\n'), marker);
    }
  }

  /** Whatever was promoted, the summary is every line, or a single leading marker and a proper
      suffix of the lines: the marker is there exactly when something was dropped. */
  lemma SummaryProvenance(b: ContextBudget, promoted: seq<ContextMessage>)
    requires Normalised(b) && promoted != []
    ensures var all := Join(LinesOf(b, promoted), '\n');
      && MarkedSuffix(SummaryOf(b, promoted), all, Marker())
      && (Marker() <= SummaryOf(b, promoted) <==> SummaryOf(b, promoted) != all)
  {
    LinesOfAreLines(b, promoted);
    SummariseMarked(LinesOf(b, promoted), b.summaryMaxChars, Marker());
  }

  lemma SummaryNotBlank(b: ContextBudget, promoted: seq<ContextMessage>)
    requires Normalised(b)
    ensures IsBlank(SummaryOf(b, promoted)) <==> promoted == []
  {
    if promoted != [] {
      LinesOfAreLines(b, promoted);
      SummariseMarked(LinesOf(b, promoted), b.summaryMaxChars, Marker());
      MarkedNotBlank(SummaryOf(b, promoted), Join(LinesOf(b, promoted), '\n'), Marker());
    }
  }

  function Max(a: int, b: int): int { if a < b then b else a }

  lemma {:induction false} SummariseBound(lines: seq<string>, max: nat, marker: string, lineMax: nat)
    requires forall i | 0 <= i < |lines| :: |lines[i]| <= lineMax
    ensures |Summarise(lines, max, marker)| <= Max(max, Max(|marker|, lineMax))
  {}

  /** The summary's length is bounded by its budget, the bare marker or one first line. */
  lemma SummaryBound(b: ContextBudget, promoted: seq<ContextMessage>)
    requires Normalised(b)
    ensures |SummaryOf(b, promoted)| <= Max(b.summaryMaxChars, Max(23, b.summaryLineMaxChars + 13))
  {
    LinesOfAreLines(b, promoted);
    SummariseBound(LinesOf(b, promoted), b.summaryMaxChars, Marker(), b.summaryLineMaxChars + 13);
  }

  function Repeat(n: nat): (s: string)
    ensures |s| == n && forall i | 0 <= i < n :: s[i] == 'x'
  {
    seq(n, _ => 'x')
  }

  /** A message of one long word from the assistant fills its summary line. */
  lemma FullLine(b: ContextBudget)
    requires Normalised(b)
    ensures |SummaryLine(ContextMessage("assistant", Repeat(b.summaryLineMaxChars)), b)| == b.summaryLineMaxChars + 13
  {
    var text := Repeat(b.summaryLineMaxChars);
    TrimFixed(text, WHITE);
    OneWord(text, "");
    assert "" + text == text && Join([text], ' ') == text;
    LabelOf("assistant");
  }

  lemma MarkerOverflows(a: string, line: string, max: nat, marker: string)
    requires !IsBlank(a) && max < |marker| && max < |a| + 1 + |line|
    ensures Summarise([a, line], max, marker) == marker
  {
    assert [a, line][..1] == [a] && [a][..0] == [];
    assert Summarise([a], max, marker) == a;
  }

  /** No run of promotions takes the summary beyond its budget if and only if the budget has room for the
      marker and for one full line. */
  lemma SummaryBudgetKept(b: ContextBudget)
    requires Normalised(b)
    ensures (forall promoted :: |SummaryOf(b, promoted)| <= b.summaryMaxChars) <==>
      b.summaryMaxChars >= Max(23, b.summaryLineMaxChars + 13)
  {
    forall promoted ensures |SummaryOf(b, promoted)| <= Max(b.summaryMaxChars, Max(23, b.summaryLineMaxChars + 13)) {
      SummaryBound(b, promoted);
    }
    if b.summaryMaxChars < Max(23, b.summaryLineMaxChars + 13) {
      var promoted := Overflowing(b);
    }
  }

  lemma OneSummarised(b: ContextBudget, msg: ContextMessage)
    requires Normalised(b)
    ensures SummaryOf(b, [msg]) == SummaryLine(msg, b)
  {
    var line := SummaryLine(msg, b);
    assert LinesOf(b, [msg]) == [line] && [line][..0] == [];
    assert Summarise([], b.summaryMaxChars, Marker()) == "";
  }

  lemma TwoSummarised(b: ContextBudget, msg: ContextMessage)
    requires Normalised(b)
    requires b.summaryMaxChars < 23 && b.summaryMaxChars < 2 * |SummaryLine(msg, b)| + 1
    ensures SummaryOf(b, [msg, msg]) == Marker()
  {
    var line := SummaryLine(msg, b);
    assert LinesOf(b, [msg, msg]) == [line, line];
    SummaryLineShape(msg, b);
    assert !IsBlank(line);
    MarkerOverflows(line, line, b.summaryMaxChars, Marker());
  }

  lemma Overflowing(b: ContextBudget) returns (promoted: seq<ContextMessage>)
    requires Normalised(b) && b.summaryMaxChars < Max(23, b.summaryLineMaxChars + 13)
    ensures |SummaryOf(b, promoted)| > b.summaryMaxChars
  {
    var msg := ContextMessage("assistant", Repeat(b.summaryLineMaxChars));
    FullLine(b);
    if b.summaryMaxChars < b.summaryLineMaxChars + 13 {
      promoted := [msg];
      OneSummarised(b, msg);
    } else {
      promoted := [msg, msg];
      TwoSummarised(b, msg);
    }
  }

  function LastLines(lines: seq<string>, j: nat): string
    requires j <= |lines|
  {
    Join(lines[|lines| - j..], '\n')
  }

  lemma LastOfLast(lines: seq<string>, j: nat, i: nat)
    requires i <= j <= |lines|
    ensures LastLines(lines[|lines| - j..], i) == LastLines(lines, i)
  {
    assert lines[|lines| - j..][j - i..] == lines[|lines| - i..];
  }

  /** The last j + 1 lines take up the room or more. */
  predicate NoRoomForMore(lines: seq<string>, j: nat, room: int) {
    j < |lines| && |LastLines(lines, j + 1)| >= room
  }

  /** Keeping the last n bytes of joined lines and dropping the first, cut line leaves whole
      lines, at least the last one, and as many as have room. */
  lemma {:induction false} LastBytesKeepWholeLines(lines: seq<string>, n: nat) returns (j: nat)
    requires lines != [] && forall i | 0 <= i < |lines| :: IsLine(lines[i])
    requires |lines[|lines| - 1]| <= n < |Join(lines, '\n')|
    ensures 1 <= j < |lines|
    ensures DropPartialLine(LastBytes(Join(lines, '\n'), n)) == LastLines(lines, j)
    ensures NoRoomForMore(lines, j, n)
  {
    var rest := lines[1..];
    var r := Join(rest, '\n');
    var keep := LastBytes(Join(lines, '\n'), n);
    assert LastLines(lines, |lines|) == Join(lines, '\n') && LastLines(lines, |rest|) == r;
    assert rest != [] && Join(lines, '\n') == lines[0] + ['\n'] + r;
    if n < |r| {
      j := LastBytesKeepWholeLines(rest, n);
      assert keep == LastBytes(r, n);
      LastOfLast(lines, |rest|, j);
      LastOfLast(lines, |rest|, j + 1);
    } else if n == |r| {
      assert keep == r;
      if |rest| == 1 {
        j := 1;
        assert lines[|lines| - 1..] == rest && IsLine(rest[0]) && rest == [r];
      } else {
        j := |rest| - 1;
        WholeLinesTail(rest);
        LastOfLast(lines, |rest|, j);
      }
    } else {
      j := |rest|;
      var cut := |lines[0]| - (n - |r| - 1);
      var tail := lines[0][cut..];
      assert keep == tail + ['\n'] + r;
      JoinCons(tail, rest, '\n');
      assert IsLine(lines[0]) && forall i | 0 <= i < |tail| :: tail[i] == lines[0][cut + i];
      WholeLinesTail([tail] + rest);
      assert ([tail] + rest)[1..] == rest;
    }
  }

  lemma WholeLinesTail(lines: seq<string>)
    requires |lines| > 1 && IsOneLine(lines[0]) && IsLine(lines[1])
    ensures DropPartialLine(Join(lines, '\n')) == Join(lines[1..], '\n')
  {
    var r := Join(lines[1..], '\n');
    assert |r| >= |lines[1]|;
    IndexOfCut(lines[0], '\n', r);
  }

  /** The summary is all lines, or the marker and the last j of them, 1 <= j, with no room for one more. */
  ghost predicate KeepsLastLines(summary: string, lines: seq<string>, marker: string, room: int) {
    || summary == Join(lines, '\n')
    || exists j | 1 <= j < |lines| :: summary == marker + "\n" + LastLines(lines, j) && NoRoomForMore(lines, j, room)
  }

  /** The lines a summary shows, the marker counted as a line. */
  predicate Shows(shown: seq<string>, lines: seq<string>, marker: string, room: int) {
    || shown == lines
    || (1 < |shown| <= |lines| && shown == [marker] + lines[|lines| - |shown| + 1..]
        && NoRoomForMore(lines, |shown| - 1, room))
  }

  lemma CutShown(lines: seq<string>, shown: seq<string>, n: nat, marker: string, room: int) returns (j: nat)
    requires IsMarker(marker) && AreLines(lines) && lines != []
    requires Shows(shown, lines, marker, room)
    requires |lines[|lines| - 1]| <= n < |Join(shown, '\n')| && room <= n
    ensures 1 <= j < |lines|
    ensures DropPartialLine(LastBytes(Join(shown, '\n'), n)) == LastLines(lines, j)
    ensures NoRoomForMore(lines, j, room)
  {
    j := LastBytesKeepWholeLines(shown, n);
    assert shown[|shown| - j..] == lines[|lines| - j..];
    if j + 1 < |shown| {
      assert shown[|shown| - (j + 1)..] == lines[|lines| - (j + 1)..];
    }
  }

  /** The second cut, which makes room for the marker. */
  function CutTo(keep: string, n: nat): string {
    if |keep| <= n then keep else DropPartialLine(LastBytes(keep, n))
  }

  lemma TrimSummaryCuts(summary: string, max: nat, marker: string)
    requires |marker| + 1 < max < |summary|
    ensures TrimSummary(summary, max, marker)
      == marker + "\n" + CutTo(DropPartialLine(LastBytes(summary, max)), max - |marker| - 1)
  {}

  lemma CutAgain(lines: seq<string>, j: nat, n: nat, marker: string) returns (i: nat)
    requires IsMarker(marker) && AreLines(lines) && 1 <= j < |lines|
    requires |lines[|lines| - 1]| <= n && NoRoomForMore(lines, j, n)
    ensures 1 <= i < |lines|
    ensures CutTo(LastLines(lines, j), n) == LastLines(lines, i)
    ensures NoRoomForMore(lines, i, n)
  {
    if |LastLines(lines, j)| <= n {
      i := j;
    } else {
      var kept := lines[|lines| - j..];
      assert Join(kept, '\n') == LastLines(lines, j) && kept[|kept| - 1] == lines[|lines| - 1];
      i := LastBytesKeepWholeLines(kept, n);
      LastOfLast(lines, j, i);
      LastOfLast(lines, j, i + 1);
    }
  }

  lemma LastLinesNext(lines: seq<string>, j: nat, line: string)
    requires 1 <= j <= |lines|
    ensures LastLines(lines + [line], j + 1) == LastLines(lines, j) + "\n" + line
  {
    var kept, lines' := lines[|lines| - j..], lines + [line];
    assert lines'[|lines'| - (j + 1)..] == kept + [line];
    JoinConcat(kept, [line], '\n');
  }

  lemma ShownLines(existing: string, lines: seq<string>, line: string, marker: string, room: int) returns (shown: seq<string>)
    requires lines != [] && KeepsLastLines(existing, lines, marker, room)
    ensures Shows(shown, lines + [line], marker, room)
    ensures Join(shown, '\n') == existing + "\n" + line
  {
    var lines' := lines + [line];
    if existing == Join(lines, '\n') {
      shown := lines';
      JoinConcat(lines, [line], '\n');
    } else {
      var j :| 1 <= j < |lines| && existing == marker + "\n" + LastLines(lines, j) && NoRoomForMore(lines, j, room);
      var kept := lines'[|lines'| - (j + 1)..];
      shown := [marker] + kept;
      LastLinesNext(lines, j, line);
      LastLinesNext(lines, j + 1, line);
      JoinCons(marker, kept, '\n');
    }
  }

  lemma ShownKeepsLastLines(shown: seq<string>, lines: seq<string>, marker: string, room: int)
    requires Shows(shown, lines, marker, room)
    ensures KeepsLastLines(Join(shown, '\n'), lines, marker, room)
  {
    if shown != lines {
      assert shown == [marker] + shown[1..];
      JoinCons(marker, shown[1..], '\n');
      assert Join(shown, '\n') == marker + "\n" + LastLines(lines, |shown| - 1);
    }
  }

  lemma TrimmedKeepsLastLines(shown: seq<string>, lines: seq<string>, max: nat, marker: string, room: nat) returns (i: nat)
    requires IsMarker(marker) && AreLines(lines) && lines != [] && Shows(shown, lines, marker, room)
    requires |lines[|lines| - 1]| <= room <= max < |Join(shown, '\n')|
    ensures 1 <= i < |lines| && NoRoomForMore(lines, i, room)
    ensures CutTo(DropPartialLine(LastBytes(Join(shown, '\n'), max)), room) == LastLines(lines, i)
  {
    var keep := DropPartialLine(LastBytes(Join(shown, '\n'), max));
    var j := CutShown(lines, shown, max, marker, room);
    assert keep == LastLines(lines, j);
    i := CutAgain(lines, j, room, marker);
  }

  lemma AppendLineKeepsLastLines(existing: string, lines: seq<string>, line: string, max: nat, marker: string)
    requires IsMarker(marker) && lines != [] && AreLines(lines + [line])
    requires |line| + |marker| + 1 <= max
    requires !IsBlank(existing) && KeepsLastLines(existing, lines, marker, max - |marker| - 1)
    ensures KeepsLastLines(AppendLine(existing, line, max, marker), lines + [line], marker, max - |marker| - 1)
  {
    var room := max - |marker| - 1;
    var shown := ShownLines(existing, lines, line, marker, room);
    if |existing + "\n" + line| <= max {
      ShownKeepsLastLines(shown, lines + [line], marker, room);
    } else {
      assert IsLine((lines + [line])[|lines|]);
      var i := TrimmedKeepsLastLines(shown, lines + [line], max, marker, room);
      TrimSummaryCuts(existing + "\n" + line, max, marker);
    }
  }

  lemma {:induction false} SummariseKeepsLastLines(lines: seq<string>, max: nat, marker: string)
    requires IsMarker(marker) && AreLines(lines) && lines != []
    requires forall i | 0 <= i < |lines| :: |lines[i]| + |marker| + 1 <= max
    ensures KeepsLastLines(Summarise(lines, max, marker), lines, marker, max - |marker| - 1)
  {
    var init, line := lines[..|lines| - 1], lines[|lines| - 1];
    assert lines == init + [line];
    if init == [] {
      assert lines == [line] && Join(lines, '\n') == line && Summarise(init, max, marker) == "";
    } else {
      SummariseKeepsLastLines(init, max, marker);
      SummariseMarked(init, max, marker);
      MarkedNotBlank(Summarise(init, max, marker), Join(init, '\n'), marker);
      AppendLineKeepsLastLines(Summarise(init, max, marker), init, line, max, marker);
    }
  }

  /** With room for one line and the marker, the summary stays within its budget and consists of whole
      lines; the newest line always survives, and as many older ones as have room beside the marker. */
  lemma SummaryKeepsLastLines(b: ContextBudget, promoted: seq<ContextMessage>)
    requires Normalised(b) && promoted != []
    requires b.summaryMaxChars >= b.summaryLineMaxChars + 37
    ensures KeepsLastLines(SummaryOf(b, promoted), LinesOf(b, promoted), Marker(), b.summaryMaxChars - 24)
    ensures |SummaryOf(b, promoted)| <= b.summaryMaxChars
  {
    SummaryBound(b, promoted);
    LinesOfAreLines(b, promoted);
    SummariseKeepsLastLines(LinesOf(b, promoted), b.summaryMaxChars, Marker());
  }

  // ---------- when nothing is dropped ----------

  lemma {:induction false} FitsWhole(lines: seq<string>, max: nat, marker: string)
    requires AreLines(lines) && lines != [] && (|Join(lines, '\n')| <= max || |lines| == 1)
    ensures Summarise(lines, max, marker) == Join(lines, '\n')
  {
    var init, line := lines[..|lines| - 1], lines[|lines| - 1];
    assert lines == init + [line];
    if init != [] {
      JoinConcat(init, [line], '\n');
      FitsWhole(init, max, marker);
      assert Join(init, '\n')[0] == init[0][0] == '-';
    }
  }

  lemma OverfullMarked(existing: string, line: string, all: string, max: nat, marker: string)
    requires IsMarker(marker) && all != "" && all[0] == '-' && MarkedSuffix(existing, all, marker)
    requires |all + "\n" + line| > max
    ensures AppendLine(existing, line, max, marker) != all + "\n" + line
  {
    MarkedNotBlank(existing, all, marker);
    if existing != all {
      assert existing[0] == '[';
    }
  }

  /** The summary is all lines if and only if they fit the budget, or there is only one. */
  lemma SummaryWholeIff(b: ContextBudget, promoted: seq<ContextMessage>)
    requires Normalised(b) && promoted != []
    ensures var all := Join(LinesOf(b, promoted), '\n');
      SummaryOf(b, promoted) == all <==> |all| <= b.summaryMaxChars || |promoted| == 1
  {
    LinesOfAreLines(b, promoted);
    WholeIff(LinesOf(b, promoted), b.summaryMaxChars, Marker());
  }

  lemma WholeIff(lines: seq<string>, max: nat, marker: string)
    requires IsMarker(marker) && AreLines(lines) && lines != []
    ensures Summarise(lines, max, marker) == Join(lines, '\n') <==> |Join(lines, '\n')| <= max || |lines| == 1
  {
    if |Join(lines, '\n')| <= max || |lines| == 1 {
      FitsWhole(lines, max, marker);
    } else {
      var init, line := lines[..|lines| - 1], lines[|lines| - 1];
      assert lines == init + [line];
      JoinConcat(init, [line], '\n');
      SummariseMarked(init, max, marker);
      OverfullMarked(Summarise(init, max, marker), line, Join(init, '\n'), max, marker);
    }
  }

  // ---------- the window ----------

  /** One message through the window: below the limit it is added, at the limit it pushes the
      oldest message into the summary. */
  function Push(c: Cache, msg: ContextMessage, b: ContextBudget): Cache
    requires Normalised(b)
  {
    if |c.recent| < b.historyLimit then c.(recent := c.recent + [msg])
    else Cache(c.recent[1..] + [msg], c.summarized + 1, AppendSummary(c.summary, c.recent[0], b))
  }

  /** The cache as a replay of a whole conversation. */
  function Replay(b: ContextBudget, msgs: seq<ContextMessage>): Cache
    requires Normalised(b)
  {
    if msgs == [] then EMPTY_CACHE else Push(Replay(b, msgs[..|msgs| - 1]), msgs[|msgs| - 1], b)
  }

  function WindowSize(b: ContextBudget, n: nat): (k: nat)
    requires Normalised(b)
    ensures k <= n
  {
    if n < b.historyLimit then n else b.historyLimit
  }

  lemma SummaryOfNext(b: ContextBudget, promoted: seq<ContextMessage>, msg: ContextMessage)
    requires Normalised(b)
    ensures SummaryOf(b, promoted + [msg]) == AppendSummary(SummaryOf(b, promoted), msg, b)
  {
    var lines := LinesOf(b, promoted + [msg]);
    assert lines[..|promoted|] == LinesOf(b, promoted);
  }

  /** The part of a conversation that has left the window. */
  function Promoted(b: ContextBudget, msgs: seq<ContextMessage>): seq<ContextMessage>
    requires Normalised(b)
  {
    msgs[..|msgs| - WindowSize(b, |msgs|)]
  }

  lemma PromotedNext(b: ContextBudget, msgs: seq<ContextMessage>, msg: ContextMessage)
    requires Normalised(b)
    ensures Promoted(b, msgs + [msg])
      == if |msgs| < b.historyLimit then Promoted(b, msgs) else Promoted(b, msgs) + [msgs[|msgs| - b.historyLimit]]
  {}

  /** A cache in closed form, but for its summary. */
  function Window(b: ContextBudget, msgs: seq<ContextMessage>, summary: string): Cache
    requires Normalised(b)
  {
    var left := |msgs| - WindowSize(b, |msgs|);
    Cache(msgs[left..], left, summary)
  }

  lemma PushWindow(b: ContextBudget, msgs: seq<ContextMessage>, msg: ContextMessage, summary: string)
    requires Normalised(b)
    ensures Push(Window(b, msgs, summary), msg, b)
      == Window(b, msgs + [msg], if |msgs| < b.historyLimit then summary
                                 else AppendSummary(summary, msgs[|msgs| - b.historyLimit], b))
  {
    var left := |msgs| - WindowSize(b, |msgs|);
    if |msgs| < b.historyLimit {
      assert (msgs + [msg])[0..] == msgs[0..] + [msg];
    } else {
      assert (msgs + [msg])[left + 1..] == msgs[left..][1..] + [msg];
    }
  }

  lemma ReplayNext(b: ContextBudget, msgs: seq<ContextMessage>, msg: ContextMessage)
    requires Normalised(b)
    ensures Replay(b, msgs + [msg]) == Push(Replay(b, msgs), msg, b)
  {
    assert (msgs + [msg])[..|msgs|] == msgs;
  }

  /** No message is lost or reordered: after n messages the window is exactly the last min(n, H)
      of them, the count is the rest, and the summary is that of the rest. */
  lemma {:induction false} WindowConservation(b: ContextBudget, msgs: seq<ContextMessage>)
    requires Normalised(b)
    ensures Replay(b, msgs) == Window(b, msgs, SummaryOf(b, Promoted(b, msgs)))
  {
    if msgs == [] {
    } else {
      var n := |msgs| - 1;
      var init, msg := msgs[..n], msgs[n];
      assert msgs == init + [msg];
      WindowConservation(b, init);
      ReplayNext(b, init, msg);
      PushWindow(b, init, msg, SummaryOf(b, Promoted(b, init)));
      PromotedNext(b, init, msg);
      if n >= b.historyLimit {
        SummaryOfNext(b, Promoted(b, init), init[n - b.historyLimit]);
      }
    }
  }
}
