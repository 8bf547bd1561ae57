/** The session manager and its in-memory store (internal/sessions/manager.go, store.go).
    Specification functions over `State` come first, the whole-run theorems about them next,
    and the classes that carry them out last. */
module SessionManager {
  import opened Text
  import opened SessionContext

  datatype Entry = Entry(sessionKey: string, sessionID: string, agentID: string, updatedAt: int,
                         version: int, sig: string, cache: Cache)

  datatype MessageRecord = MessageRecord(
    schemaVersion: int, recordType: string, eventType: string, role: string,
    sessionID: string, sessionKey: string, agentID: string,
    runID: string, kind: string, provider: string, text: string, aborted: bool,
    toolCall: Option<string>, usage: Option<string>, metadata: map<string, string>, at: int)

  datatype AppendOptions = AppendOptions(
    eventType: string, runID: string, kind: string, provider: string, aborted: bool,
    toolCall: Option<string>, usage: Option<string>, metadata: map<string, string>)

  /** A line of a transcript file: a record, or something that does not decode as one. */
  datatype Line = Record(rec: MessageRecord) | Unreadable

  datatype State = State(store: map<string, Entry>, transcripts: map<string, seq<Line>>, budget: ContextBudget)

  // ---------- records and transcripts ----------

  function NormalizeRecord(rec: MessageRecord, e: Entry): MessageRecord {
    var recordType := if rec.recordType == "" then "message" else rec.recordType;
    var eventType := if rec.eventType != "" then rec.eventType
                     else if recordType == "event" then "event" else "message";
    var rich := rec.runID != "" || rec.kind != "" || rec.provider != "" || rec.toolCall.Some?
                || rec.usage.Some? || rec.metadata != map[] || eventType != "message";
    rec.(sessionID := if rec.sessionID == "" then e.sessionID else rec.sessionID,
         sessionKey := if rec.sessionKey == "" then e.sessionKey else rec.sessionKey,
         agentID := if rec.agentID == "" then e.agentID else rec.agentID,
         recordType := recordType,
         eventType := eventType,
         schemaVersion := if rec.schemaVersion != 0 then rec.schemaVersion else if rich then 2 else 1)
  }

  function ContextOfLine(line: Line, e: Entry): seq<ContextMessage> {
    if line.Unreadable? then [] else
      var rec := NormalizeRecord(line.rec, e);
      if IsContextMessage(rec.role, rec.text, rec.eventType) then [NormalizeMessage(rec.role, rec.text)] else []
  }

  /** The conversation a transcript holds. */
  function ContextOf(lines: seq<Line>, e: Entry): seq<ContextMessage> {
    if lines == [] then [] else ContextOf(lines[..|lines| - 1], e) + ContextOfLine(lines[|lines| - 1], e)
  }

  function Transcript(s: State, id: string): seq<Line> {
    if id in s.transcripts then s.transcripts[id] else []
  }

  function Conversation(s: State, e: Entry): seq<ContextMessage> {
    ContextOf(Transcript(s, e.sessionID), e)
  }

  // ---------- the operations ----------

  function PutEntry(s: State, e: Entry): State {
    s.(store := s.store[e.sessionKey := e])
  }

  predicate Trusted(e: Entry, b: ContextBudget) {
    e.version == CONTEXT_STATE_VERSION && e.sig == Signature(b)
  }

  function Rebuilt(s: State, e: Entry): Entry
    requires Normalised(s.budget)
  {
    e.(version := CONTEXT_STATE_VERSION, sig := Signature(s.budget), cache := Replay(s.budget, Conversation(s, e)))
  }

  function Ensured(s: State, e: Entry): Entry
    requires Normalised(s.budget)
  {
    if Trusted(e, s.budget) then e else Rebuilt(s, e)
  }

  function Applied(e: Entry, role: string, text: string, b: ContextBudget): Entry
    requires Normalised(b)
  {
    if IsBlank(text) then e else e.(cache := Push(e.cache, NormalizeMessage(role, text), b))
  }

  function FreshID(nano: int): string { "sess-" + Itoa(nano) }

  function Touched(s: State, key: string, agent: string, nano: int, now: int): Entry {
    if key in s.store then s.store[key].(updatedAt := now)
    else Entry(key, FreshID(nano), agent, now, CONTEXT_STATE_VERSION, Signature(s.budget), EMPTY_CACHE)
  }

  function EventType(opts: AppendOptions): string {
    if IsBlank(opts.eventType) then "message" else TrimSpace(opts.eventType)
  }

  function RecordOf(e: Entry, role: string, text: string, opts: AppendOptions, at: int): MessageRecord {
    var eventType := EventType(opts);
    MessageRecord(2, if eventType == "message" then "message" else "event", eventType, role,
                  e.sessionID, e.sessionKey, e.agentID,
                  TrimSpace(opts.runID), TrimSpace(opts.kind), TrimSpace(opts.provider), text, opts.aborted,
                  opts.toolCall, opts.usage, opts.metadata, at)
  }

  predicate Skipped(text: string, opts: AppendOptions) {
    IsBlank(text) && opts.toolCall.None? && opts.usage.None? && opts.metadata == map[]
  }

  function Written(s: State, e: Entry, rec: MessageRecord): State {
    s.(transcripts := s.transcripts[e.sessionID := Transcript(s, e.sessionID) + [Record(rec)]])
  }

  function Appended(s: State, e: Entry, role: string, text: string, opts: AppendOptions, at: int, now: int): State
    requires Normalised(s.budget)
  {
    if Skipped(text, opts) then s else
      var s' := Written(s, e, RecordOf(e, role, text, opts, at));
      if !IsContextMessage(role, text, EventType(opts)) then s' else
        var latest := if e.sessionKey in s.store then s.store[e.sessionKey] else e;
        PutEntry(s', Applied(Ensured(s', latest), role, text, s.budget).(updatedAt := now))
  }

  function AfterModelContext(s: State, key: string): State
    requires Normalised(s.budget)
  {
    if key in s.store && !Trusted(s.store[key], s.budget) then PutEntry(s, Rebuilt(s, s.store[key])) else s
  }

  function NonBlank(msgs: seq<ContextMessage>): seq<ContextMessage> {
    if msgs == [] then [] else
      var last := msgs[|msgs| - 1];
      NonBlank(msgs[..|msgs| - 1]) + if IsBlank(last.text) then [] else [last]
  }

  function RenderSummary(c: Cache): string {
    if c.summarized == 0 || IsBlank(c.summary) then "" else
      "Earlier conversation covered " + Itoa(c.summarized) + " messages. Rolling notes:\n" + TrimSpace(c.summary)
  }

  // ---------- runs ----------

  datatype Op =
    | Touch(key: string, agent: string, nano: int, now: int)
    | SetContextBudget(budget: ContextBudget)
    | ModelContext(key: string)
    | Append(entry: Entry, role: string, text: string, opts: AppendOptions, at: int, now: int)

  function Step(s: State, op: Op): State
    requires Normalised(s.budget)
  {
    match op
    case Touch(key, agent, nano, now) => PutEntry(s, Touched(s, key, agent, nano, now))
    case SetContextBudget(b) => s.(budget := NormalizeBudget(b))
    case ModelContext(key) => AfterModelContext(s, key)
    case Append(e, role, text, opts, at, now) => Appended(s, e, role, text, opts, at, now)
  }

  /** No session or transcript uses the id. */
  predicate IsFresh(s: State, id: string) {
    id !in s.transcripts && forall k | k in s.store :: s.store[k].sessionID != id
  }

  /** The caller's entry names a stored session. */
  predicate Names(s: State, e: Entry) {
    e.sessionKey in s.store && s.store[e.sessionKey].sessionID == e.sessionID
  }

  /** What the run theorem asks of an operation: clock readings give fresh ids, and an append names a
      stored session, whose cache is current if the message counts as context. */
  predicate Allowed(s: State, op: Op) {
    match op
    case Touch(key, _, nano, _) => key in s.store || IsFresh(s, FreshID(nano))
    case Append(e, role, text, opts, _, _) =>
      Names(s, e) && (IsContextMessage(role, text, EventType(opts)) ==> Trusted(s.store[e.sessionKey], s.budget))
    case _ => true
  }

  function Run(s: State, ops: seq<Op>): State
    requires Normalised(s.budget)
    ensures Normalised(Run(s, ops).budget)
    decreases |ops|
  {
    if ops == [] then s else Run(Step(s, ops[0]), ops[1..])
  }

  predicate AllowedRun(s: State, ops: seq<Op>)
    requires Normalised(s.budget)
    decreases |ops|
  {
    ops == [] || (Allowed(s, ops[0]) && AllowedRun(Step(s, ops[0]), ops[1..]))
  }

  predicate Initial(s: State) {
    s.store == map[] && Normalised(s.budget)
  }

  /** A trusted cache is the replay of the session's transcript, under whichever budget it is trusted. */
  ghost predicate Replays(s: State, e: Entry) {
    forall b | Normalised(b) && Trusted(e, b) :: e.cache == Replay(b, Conversation(s, e))
  }

  ghost predicate Inv(s: State) {
    WellKeyed(s) && forall k | k in s.store :: Replays(s, s.store[k])
  }

  /** Only the event type of a record is normalised on the way to the context. */
  lemma SameContext(lines: seq<Line>, e: Entry, e': Entry)
    ensures ContextOf(lines, e) == ContextOf(lines, e')
  {}

  lemma WrittenContext(s: State, e: Entry, rec: MessageRecord)
    ensures Conversation(Written(s, e, rec), e) == Conversation(s, e) + ContextOfLine(Record(rec), e)
  {
    var lines := Transcript(s, e.sessionID);
    assert (lines + [Record(rec)])[..|lines|] == lines;
  }

  lemma RecordContext(e: Entry, e': Entry, role: string, text: string, opts: AppendOptions, at: int)
    ensures ContextOfLine(Record(RecordOf(e, role, text, opts, at)), e')
      == if IsContextMessage(role, text, EventType(opts)) then [NormalizeMessage(role, text)] else []
  {
    BlankTrims(opts.eventType);
  }

  ghost predicate WellKeyed(s: State) {
    && Normalised(s.budget)
    && (forall k | k in s.store :: s.store[k].sessionKey == k)
    && (forall k, k' | k in s.store && k' in s.store && s.store[k].sessionID == s.store[k'].sessionID :: k == k')
  }

  /** Putting an entry that replays, where every other entry does, under its own or a new id. */
  lemma PutKeepsInv(s: State, e: Entry)
    requires WellKeyed(s) && Replays(s, e)
    requires forall k | k in s.store && k != e.sessionKey :: Replays(s, s.store[k])
    requires Names(s, e) || (e.sessionKey !in s.store && forall k | k in s.store :: s.store[k].sessionID != e.sessionID)
    ensures Inv(PutEntry(s, e))
  {
    var s' := PutEntry(s, e);
    forall k | k in s'.store ensures Replays(s', s'.store[k]) {
      assert Replays(s, s'.store[k]);
      assert Conversation(s', s'.store[k]) == Conversation(s, s'.store[k]);
    }
  }

  lemma TrustedOnce(e: Entry, b: ContextBudget, b': ContextBudget)
    requires Trusted(e, b) && Trusted(e, b')
    ensures b == b'
  {
    SignatureInjective(b, b');
  }

  /** An entry trusted under one budget replays as soon as it replays under that one. */
  lemma ReplaysUnder(s: State, e: Entry, b: ContextBudget)
    requires Normalised(b) && Trusted(e, b) && e.cache == Replay(b, Conversation(s, e))
    ensures Replays(s, e)
  {
    forall b' | Normalised(b') && Trusted(e, b') ensures e.cache == Replay(b', Conversation(s, e)) {
      TrustedOnce(e, b, b');
    }
  }

  lemma TouchKeepsInv(s: State, key: string, agent: string, nano: int, now: int)
    requires Inv(s) && (key in s.store || IsFresh(s, FreshID(nano)))
    ensures Inv(PutEntry(s, Touched(s, key, agent, nano, now)))
  {
    var e := Touched(s, key, agent, nano, now);
    if key in s.store {
      assert Replays(s, s.store[key]);
      SameContext(Transcript(s, e.sessionID), e, s.store[key]);
    } else {
      ReplaysUnder(s, e, s.budget);
    }
    PutKeepsInv(s, e);
  }

  lemma RebuiltReplays(s: State, e: Entry)
    requires Normalised(s.budget)
    ensures Replays(s, Rebuilt(s, e))
  {
    SameContext(Transcript(s, e.sessionID), e, Rebuilt(s, e));
    ReplaysUnder(s, Rebuilt(s, e), s.budget);
  }

  lemma ModelContextKeepsInv(s: State, key: string)
    requires Inv(s)
    ensures Inv(AfterModelContext(s, key))
  {
    if key in s.store {
      RebuiltReplays(s, s.store[key]);
      PutKeepsInv(s, Rebuilt(s, s.store[key]));
    }
  }

  /** Writing a record of one session leaves the conversations of the others alone. */
  lemma WrittenElsewhere(s: State, e: Entry, rec: MessageRecord, other: Entry)
    requires other.sessionID != e.sessionID
    ensures Conversation(Written(s, e, rec), other) == Conversation(s, other)
  {}

  lemma WriteKeepsOthers(s: State, e: Entry, rec: MessageRecord)
    requires Inv(s) && Names(s, e)
    ensures var s' := Written(s, e, rec);
      forall k | k in s.store && k != e.sessionKey :: Replays(s', s'.store[k])
  {
    var s' := Written(s, e, rec);
    forall k | k in s.store && k != e.sessionKey ensures Replays(s', s'.store[k]) {
      assert Replays(s, s.store[k]);
      WrittenElsewhere(s, e, rec, s.store[k]);
    }
  }

  lemma NonContextKeepsInv(s: State, e: Entry, rec: MessageRecord)
    requires Inv(s) && Names(s, e) && forall e' :: ContextOfLine(Record(rec), e') == []
    ensures Inv(Written(s, e, rec))
  {
    var s' := Written(s, e, rec);
    WriteKeepsOthers(s, e, rec);
    var own := s.store[e.sessionKey];
    assert Replays(s, own);
    assert Written(s, own, rec) == s';
    WrittenContext(s, own, rec);
    assert Conversation(s', own) == Conversation(s, own);
    assert Replays(s', own);
  }

  /** The stored entry after a context message was applied to a current cache. */
  lemma AppliedReplays(s: State, own: Entry, rec: MessageRecord, role: string, text: string, now: int)
    requires Normalised(s.budget) && Trusted(own, s.budget) && Replays(s, own) && !IsBlank(text)
    requires ContextOfLine(Record(rec), own) == [NormalizeMessage(role, text)]
    ensures Replays(Written(s, own, rec), Applied(own, role, text, s.budget).(updatedAt := now))
  {
    var s' := Written(s, own, rec);
    var e' := Applied(own, role, text, s.budget).(updatedAt := now);
    WrittenContext(s, own, rec);
    ReplayNext(s.budget, Conversation(s, own), NormalizeMessage(role, text));
    SameContext(Transcript(s', own.sessionID), own, e');
    ReplaysUnder(s', e', s.budget);
  }

  lemma AppendKeepsInv(s: State, e: Entry, role: string, text: string, opts: AppendOptions, at: int, now: int)
    requires Inv(s) && Allowed(s, Append(e, role, text, opts, at, now))
    ensures Inv(Appended(s, e, role, text, opts, at, now))
  {
    if !Skipped(text, opts) {
      var rec := RecordOf(e, role, text, opts, at);
      var s' := Written(s, e, rec);
      forall e' ensures ContextOfLine(Record(rec), e')
          == if IsContextMessage(role, text, EventType(opts)) then [NormalizeMessage(role, text)] else [] {
        RecordContext(e, e', role, text, opts, at);
      }
      if !IsContextMessage(role, text, EventType(opts)) {
        NonContextKeepsInv(s, e, rec);
      } else {
        var own := s.store[e.sessionKey];
        AppliedReplays(s, own, rec, role, text, now);
        assert Written(s, own, rec) == s';
        WriteKeepsOthers(s, e, rec);
        PutKeepsInv(s', Applied(own, role, text, s.budget).(updatedAt := now));
      }
    }
  }

  lemma StepKeepsInv(s: State, op: Op)
    requires Inv(s) && Allowed(s, op)
    ensures Inv(Step(s, op))
  {
    match op
    case Touch(key, agent, nano, now) => TouchKeepsInv(s, key, agent, nano, now);
    case SetContextBudget(b) =>
      var s' := s.(budget := NormalizeBudget(b));
      forall k | k in s'.store ensures Replays(s', s'.store[k]) {
        assert Replays(s, s.store[k]);
        assert Conversation(s', s.store[k]) == Conversation(s, s.store[k]);
      }
    case ModelContext(key) => ModelContextKeepsInv(s, key);
    case Append(e, role, text, opts, at, now) => AppendKeepsInv(s, e, role, text, opts, at, now);
  }

  lemma {:induction false} RunKeepsInv(s: State, ops: seq<Op>)
    requires Inv(s) && AllowedRun(s, ops)
    ensures Inv(Run(s, ops))
    decreases |ops|
  {
    if ops != [] {
      StepKeepsInv(s, ops[0]);
      RunKeepsInv(Step(s, ops[0]), ops[1..]);
    }
  }

  /** Cache equals replay, in every allowed run from an empty store: an entry trusted under any
      normalised budget holds the last min(n, H) of the n context messages of its transcript, the
      number of the others, and the summary of the others. */
  lemma CacheEqualsReplay(s: State, ops: seq<Op>, key: string, b: ContextBudget)
    requires Initial(s) && AllowedRun(s, ops)
    requires key in Run(s, ops).store && Normalised(b) && Trusted(Run(s, ops).store[key], b)
    ensures var e := Run(s, ops).store[key];
      var msgs := Conversation(Run(s, ops), e);
      e.cache == Replay(b, msgs) == Window(b, msgs, SummaryOf(b, Promoted(b, msgs)))
  {
    RunKeepsInv(s, ops);
    var e := Run(s, ops).store[key];
    assert Replays(Run(s, ops), e);
    WindowConservation(b, Conversation(Run(s, ops), e));
  }

  // ---------- what the model is told ----------

  /** The history and the summary ModelContext answers with. */
  function ContextAnswer(s: State, key: string): Option<(seq<ContextMessage>, string)>
    requires Normalised(s.budget)
  {
    if key !in s.store then None else
      var c := Ensured(s, s.store[key]).cache;
      Some((NonBlank(c.recent), RenderSummary(c)))
  }

  predicate NoneBlank(msgs: seq<ContextMessage>) {
    forall i | 0 <= i < |msgs| :: !IsBlank(msgs[i].text)
  }

  lemma {:induction false} NonBlankAll(msgs: seq<ContextMessage>)
    requires NoneBlank(msgs)
    ensures NonBlank(msgs) == msgs
  {
    if msgs != [] {
      var init, last := msgs[..|msgs| - 1], msgs[|msgs| - 1];
      NonBlankAll(init);
      assert !IsBlank(last.text) && msgs == init + [last];
    }
  }

  lemma TrimNotBlank(text: string)
    requires !IsBlank(text)
    ensures !IsBlank(TrimSpace(text))
  {
    BlankTrims(text);
  }

  lemma ConversationNotBlank(lines: seq<Line>, e: Entry)
    ensures NoneBlank(ContextOf(lines, e))
  {
    if lines != [] {
      ConversationNotBlank(lines[..|lines| - 1], e);
      var line := lines[|lines| - 1];
      if line.Record? && !IsBlank(line.rec.text) {
        TrimNotBlank(line.rec.text);
      }
    }
  }

  /** ModelContext answers with the last min(n, H) context messages of the transcript, none skipped, and
      with a summary exactly when some message is not among them. */
  predicate AnswersTranscript(s: State, key: string)
    requires Normalised(s.budget) && key in s.store
  {
    var msgs := Conversation(s, s.store[key]);
    var left := |msgs| - WindowSize(s.budget, |msgs|);
    && ContextAnswer(s, key) == Some((msgs[left..], RenderSummary(Replay(s.budget, msgs))))
    && (RenderSummary(Replay(s.budget, msgs)) == "" <==> |msgs| <= s.budget.historyLimit)
  }

  /** It does so in every allowed run. */
  lemma ModelContextAnswersTranscript(s: State, ops: seq<Op>, key: string)
    requires Initial(s) && AllowedRun(s, ops) && key in Run(s, ops).store
    ensures AnswersTranscript(Run(s, ops), key)
  {
    RunKeepsInv(s, ops);
    AnswerUnderInv(Run(s, ops), key);
  }

  lemma AnswerUnderInv(s: State, key: string)
    requires Inv(s) && key in s.store
    ensures AnswersTranscript(s, key)
  {
    var e := s.store[key];
    assert Replays(s, e);
    ConversationNotBlank(Transcript(s, e.sessionID), e);
    AnswerOf(s.budget, Conversation(s, e));
  }

  lemma AnswerOf(b: ContextBudget, msgs: seq<ContextMessage>)
    requires Normalised(b) && NoneBlank(msgs)
    ensures NonBlank(Replay(b, msgs).recent) == msgs[|msgs| - WindowSize(b, |msgs|)..]
    ensures RenderSummary(Replay(b, msgs)) == "" <==> |msgs| <= b.historyLimit
  {
    WindowConservation(b, msgs);
    SummaryNotBlank(b, Promoted(b, msgs));
    NonBlankAll(msgs[|msgs| - WindowSize(b, |msgs|)..]);
  }

  // ---------- appends to a stale cache ----------

  /** An append rebuilds a stale cache from a transcript that already holds the new message, and
      then applies the message again. */
  lemma StaleAppendAppliesTwice(s: State, e: Entry, role: string, text: string, opts: AppendOptions, at: int, now: int)
    requires Inv(s) && Names(s, e) && IsContextMessage(role, text, EventType(opts))
    requires !Trusted(s.store[e.sessionKey], s.budget)
    ensures var s' := Appended(s, e, role, text, opts, at, now);
      var e' := s'.store[e.sessionKey];
      && Trusted(e', s.budget)
      && e'.cache == Replay(s.budget, Conversation(s', e') + [NormalizeMessage(role, text)])
  {
    var rec := RecordOf(e, role, text, opts, at);
    var own := s.store[e.sessionKey];
    var s' := Written(s, e, rec);
    var e' := Applied(Rebuilt(s', own), role, text, s.budget).(updatedAt := now);
    ReplayNext(s.budget, Conversation(s', own), NormalizeMessage(role, text));
    SameContext(Transcript(s', own.sessionID), own, e');
  }

  /** Appending a context message leaves its cache a replay of the transcript if and only if the
      cache was current when the append began. */
  lemma AppendReplaysIffCurrent(s: State, e: Entry, role: string, text: string, opts: AppendOptions, at: int, now: int)
    requires Inv(s) && Names(s, e) && IsContextMessage(role, text, EventType(opts))
    ensures var s' := Appended(s, e, role, text, opts, at, now);
      Replays(s', s'.store[e.sessionKey]) <==> Trusted(s.store[e.sessionKey], s.budget)
  {
    var s' := Appended(s, e, role, text, opts, at, now);
    if Trusted(s.store[e.sessionKey], s.budget) {
      AppendKeepsInv(s, e, role, text, opts, at, now);
    } else {
      StaleAppendAppliesTwice(s, e, role, text, opts, at, now);
      var e' := s'.store[e.sessionKey];
      var msgs := Conversation(s', e');
      WindowConservation(s.budget, msgs);
      WindowConservation(s.budget, msgs + [NormalizeMessage(role, text)]);
      assert e'.cache != Replay(s.budget, msgs);
    }
  }

  lemma AppendStaysCurrent(s: State, e: Entry, op: Op)
    requires Normalised(s.budget) && op.Append? && op.entry == e
    requires Names(s, e) && Trusted(s.store[e.sessionKey], s.budget)
    ensures var s' := Step(s, op);
      s'.budget == s.budget && Names(s', e) && Trusted(s'.store[e.sessionKey], s.budget)
  {}

  lemma {:induction false} AppendsAllowed(s: State, e: Entry, appends: seq<Op>)
    requires Normalised(s.budget)
    requires Names(s, e) && e.sessionKey in s.store && Trusted(s.store[e.sessionKey], s.budget)
    requires forall i | 0 <= i < |appends| :: appends[i].Append? && appends[i].entry == e
    ensures AllowedRun(s, appends)
    decreases |appends|
  {
    if appends != [] {
      AppendStaysCurrent(s, e, appends[0]);
      AppendsAllowed(Step(s, appends[0]), e, appends[1..]);
    }
  }

  /** A gateway turn touches the session, asks for its context and then appends to the touched entry,
      so every append of the turn meets a current cache. */
  lemma GatewayTurnAllowed(s: State, key: string, agent: string, nano: int, now: int, appends: seq<Op>)
    requires Inv(s) && (key in s.store || IsFresh(s, FreshID(nano)))
    requires forall i | 0 <= i < |appends| :: appends[i].Append? && appends[i].entry == Touched(s, key, agent, nano, now)
    ensures AllowedRun(s, [Touch(key, agent, nano, now), ModelContext(key)] + appends)
  {
    var touch, ask := Touch(key, agent, nano, now), ModelContext(key);
    var ops := [touch, ask] + appends;
    var s1 := Step(s, touch);
    var s2 := Step(s1, ask);
    TouchKeepsInv(s, key, agent, nano, now);
    AppendsAllowed(s2, Touched(s, key, agent, nano, now), appends);
    assert ops[1..][1..] == appends;
    assert AllowedRun(s1, ops[1..]);
  }

  // ---------- the store and the manager ----------

  class InMemoryStore {
    var data: map<string, Entry>

    constructor ()
      ensures data == map[]
    {
      data := map[];
    }

    method Get(key: string) returns (e: Option<Entry>)
      ensures e == if key in data then Some(data[key]) else None
    {
      e := if key in data then Some(data[key]) else None;
    }

    method Put(e: Entry)
      modifies this
      ensures data == old(data)[e.sessionKey := e]
    {
      data := data[e.sessionKey := e];
    }

    /** Every stored entry once, in some order of the keys. */
    method List() returns (out: seq<Entry>, ghost keys: seq<string>)
      ensures |keys| == |out| == |data|
      ensures forall i, j | 0 <= i < j < |keys| :: keys[i] != keys[j]
      ensures forall i | 0 <= i < |out| :: keys[i] in data && out[i] == data[keys[i]]
      ensures forall k | k in data :: data[k] in out
    {
      out, keys := [], [];
      var rest := data.Keys;
      while rest != {}
        invariant rest <= data.Keys && |keys| == |out| && |out| + |rest| == |data.Keys|
        invariant forall i, j | 0 <= i < j < |keys| :: keys[i] != keys[j]
        invariant forall i | 0 <= i < |out| :: keys[i] in data && keys[i] !in rest && out[i] == data[keys[i]]
        invariant forall k | k in data && k !in rest :: data[k] in out
        decreases |rest|
      {
        var k :| k in rest;
        out, keys, rest := out + [data[k]], keys + [k], rest - {k};
      }
      assert |data.Keys| == |data|;
    }
  }

  /** applyContextMessage on a local copy of an entry */
  method ApplyContextMessage(entry: Entry, role: string, text: string, budget: ContextBudget) returns (e: Entry)
    requires Normalised(budget)
    ensures e == Applied(entry, role, text, budget) && e.sessionKey == entry.sessionKey
  {
    e := entry;
    var msg := NormalizeMessage(role, text);
    BlankTrims(text);
    if msg.text == "" {
      return;
    }
    if |e.cache.recent| < budget.historyLimit {
      e := e.(cache := e.cache.(recent := e.cache.recent + [msg]));
      return;
    }
    var promoted := e.cache.recent[0];
    e := e.(cache := Cache(e.cache.recent[1..] + [msg], e.cache.summarized + 1,
                           AppendSummary(e.cache.summary, promoted, budget)));
  }

  /** What one line of a transcript adds to the replay. */
  lemma ReplayLine(b: ContextBudget, lines: seq<Line>, i: nat, e: Entry)
    requires Normalised(b) && i < |lines|
    ensures var before, added := ContextOf(lines[..i], e), ContextOfLine(lines[i], e);
      Replay(b, ContextOf(lines[..i + 1], e))
      == if added == [] then Replay(b, before) else Push(Replay(b, before), added[0], b)
  {
    assert lines[..i + 1][..i] == lines[..i];
    var before, added := ContextOf(lines[..i], e), ContextOfLine(lines[i], e);
    if added == [] {
      assert before + added == before;
    } else {
      assert added == [added[0]];
      ReplayNext(b, before, added[0]);
    }
  }

  lemma PutTwice(s: State, e: Entry, e': Entry)
    requires e.sessionKey == e'.sessionKey
    ensures PutEntry(PutEntry(s, e), e') == PutEntry(s, e')
  {}

  class Manager {
    const store: InMemoryStore
    var transcripts: map<string, seq<Line>>
    var contextBudget: ContextBudget

    ghost function Snapshot(): State
      reads this, store
    {
      State(store.data, transcripts, contextBudget)
    }

    constructor (store: InMemoryStore, transcripts: map<string, seq<Line>>)
      ensures this.store == store
      ensures Snapshot() == State(store.data, transcripts, ContextBudget(24, 1800, 180))
    {
      this.store := store;
      this.transcripts := transcripts;
      contextBudget := NormalizeBudget(ContextBudget(0, 0, 0));
    }

    method SetContextBudget(budget: ContextBudget)
      requires Normalised(contextBudget)
      modifies this
      ensures Snapshot() == Step(old(Snapshot()), Op.SetContextBudget(budget))
    {
      contextBudget := NormalizeBudget(budget);
    }

    method Touch(key: string, agent: string, nano: int, now: int) returns (e: Entry)
      requires Normalised(contextBudget)
      modifies store
      ensures Snapshot() == Step(old(Snapshot()), Op.Touch(key, agent, nano, now))
      ensures e == Touched(old(Snapshot()), key, agent, nano, now) && transcripts == old(transcripts)
      ensures store.data == old(store.data)[e.sessionKey := e] && e.updatedAt == now
      ensures key in old(store.data) ==> e == old(store.data)[key].(updatedAt := now)
      ensures key !in old(store.data) ==>
        && e.sessionKey == key && e.sessionID == "sess-" + Itoa(nano) && e.agentID == agent
        && Trusted(e, contextBudget) && e.cache == Cache([], 0, "")
    {
      var existing := store.Get(key);
      if existing.Some? {
        e := existing.value.(updatedAt := now);
        store.Put(e);
        return;
      }
      e := Entry(key, "sess-" + Itoa(nano), agent, now, CONTEXT_STATE_VERSION, Signature(contextBudget), EMPTY_CACHE);
      store.Put(e);
    }

    /** Replays the transcript line by line. */
    method Rebuild(e: Entry) returns (rebuilt: Entry)
      requires Normalised(contextBudget)
      ensures rebuilt == Rebuilt(Snapshot(), e)
    {
      rebuilt := e.(version := CONTEXT_STATE_VERSION, sig := Signature(contextBudget), cache := EMPTY_CACHE);
      if e.sessionID !in transcripts {
        return;
      }
      var lines := transcripts[e.sessionID];
      ghost var start := rebuilt;
      for i := 0 to |lines|
        invariant rebuilt == start.(cache := Replay(contextBudget, ContextOf(lines[..i], e)))
      {
        ReplayLine(contextBudget, lines, i, e);
        if lines[i].Unreadable? {
          continue;
        }
        var rec := NormalizeRecord(lines[i].rec, e);
        if !IsContextMessage(rec.role, rec.text, rec.eventType) {
          continue;
        }
        rebuilt := ApplyContextMessage(rebuilt, rec.role, rec.text, contextBudget);
      }
      assert lines[..|lines|] == lines;
    }

    method EnsureContextState(e: Entry) returns (current: Entry)
      requires Normalised(contextBudget)
      modifies store
      ensures current == Ensured(old(Snapshot()), e) && current.sessionKey == e.sessionKey
      ensures Snapshot() == if Trusted(e, contextBudget) then old(Snapshot()) else PutEntry(old(Snapshot()), current)
    {
      if e.version == CONTEXT_STATE_VERSION && e.sig == Signature(contextBudget) {
        return e;
      }
      current := Rebuild(e);
      store.Put(current);
    }

    method WriteRecord(entry: Entry, rec: MessageRecord)
      modifies this`transcripts
      ensures Snapshot() == Written(old(Snapshot()), entry, rec)
    {
      var lines := if entry.sessionID in transcripts then transcripts[entry.sessionID] else [];
      transcripts := transcripts[entry.sessionID := lines + [Record(rec)]];
    }

    method ApplyToStored(entry: Entry, role: string, text: string, now: int)
      requires Normalised(contextBudget)
      modifies store
      ensures var s := old(Snapshot());
        var latest := if entry.sessionKey in s.store then s.store[entry.sessionKey] else entry;
        Snapshot() == PutEntry(s, Applied(Ensured(s, latest), role, text, s.budget).(updatedAt := now))
    {
      var latest := store.Get(entry.sessionKey);
      var e := if latest.Some? then latest.value else entry;
      ghost var s := Snapshot();
      var current := EnsureContextState(e);
      var updated := ApplyContextMessage(current, role, text, contextBudget);
      updated := updated.(updatedAt := now);
      PutTwice(s, current, updated);
      store.Put(updated);
    }

    method AppendWithOptions(entry: Entry, role: string, text: string, opts: AppendOptions, at: int, now: int)
      requires Normalised(contextBudget)
      modifies this`transcripts, store
      ensures Snapshot() == Step(old(Snapshot()), Op.Append(entry, role, text, opts, at, now))
    {
      if IsBlank(text) && opts.toolCall.None? && opts.usage.None? && opts.metadata == map[] {
        return;
      }
      var eventType := TrimSpace(opts.eventType);
      BlankTrims(opts.eventType);
      if eventType == "" {
        eventType := "message";
      }
      var recordType := if eventType != "message" then "event" else "message";
      var rec := MessageRecord(2, recordType, eventType, role, entry.sessionID, entry.sessionKey, entry.agentID,
                               TrimSpace(opts.runID), TrimSpace(opts.kind), TrimSpace(opts.provider), text,
                               opts.aborted, opts.toolCall, opts.usage, opts.metadata, at);
      assert eventType == EventType(opts) && rec == RecordOf(entry, role, text, opts, at);
      WriteRecord(entry, rec);
      if IsContextMessage(role, text, eventType) {
        ApplyToStored(entry, role, text, now);
      }
    }

    method ModelContext(key: string) returns (answer: Option<(seq<ContextMessage>, string)>)
      requires Normalised(contextBudget)
      modifies store
      ensures answer == ContextAnswer(old(Snapshot()), key)
      ensures Snapshot() == Step(old(Snapshot()), Op.ModelContext(key))
    {
      var found := store.Get(key);
      if found.None? {
        return None;
      }
      var e := EnsureContextState(found.value);
      var recent, history := e.cache.recent, [];
      for i := 0 to |recent|
        invariant history == NonBlank(recent[..i])
      {
        assert recent[..i + 1][..i] == recent[..i];
        if !IsBlank(recent[i].text) {
          history := history + [recent[i]];
        }
      }
      assert recent[..|recent|] == recent;
      answer := Some((history, RenderSummary(e.cache)));
    }
  }
}
