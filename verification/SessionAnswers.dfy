/** What appends mean for the transcript and for the model's context, in terms of their arguments alone
    (internal/sessions/manager.go, AppendWithOptions and ModelContext). */
module SessionAnswers {
  import opened Text
  import opened SessionContext
  import opened SessionManager

  /** A text said by the user or the assistant, in an event that is a message. */
  predicate IsSaid(role: string, text: string, eventType: string) {
    && (EqualFold(TrimSpace(role), "user") || EqualFold(TrimSpace(role), "assistant"))
    && TrimSpace(text) != ""
    && (TrimSpace(eventType) == "" || TrimSpace(eventType) == "message")
  }

  /** Its role in lower case, and both without white space around them. */
  function Said(role: string, text: string): ContextMessage {
    ContextMessage(ToLower(TrimSpace(role)), TrimSpace(text))
  }

  lemma LowerNames()
    ensures ToLower("user") == "user" && ToLower("assistant") == "assistant"
  {}

  lemma SaidIsContext(role: string, text: string, eventType: string)
    ensures IsContextMessage(role, text, eventType) <==> IsSaid(role, text, eventType)
    ensures NormalizeMessage(role, text) == Said(role, text)
  {
    LowerNames();
    BlankTrims(text);
    BlankTrims(eventType);
  }

  lemma OptionsEvent(opts: AppendOptions)
    ensures TrimSpace(EventType(opts)) == if TrimSpace(opts.eventType) == "" then "message" else TrimSpace(opts.eventType)
  {
    BlankTrims(opts.eventType);
    TrimIdempotent(opts.eventType, WHITE);
    TrimFixed("message", WHITE);
  }

  lemma SaidByOptions(role: string, text: string, opts: AppendOptions)
    ensures IsContextMessage(role, text, EventType(opts)) <==> IsSaid(role, text, opts.eventType)
  {
    OptionsEvent(opts);
    SaidIsContext(role, text, EventType(opts));
  }

  // ---------- the conversation of a transcript ----------

  /** The event type of a record: its own, or by the type of an old record that has none. */
  function EventOfRecord(rec: MessageRecord): string {
    if rec.eventType != "" then rec.eventType
    else if rec.recordType == "event" then "event"
    else "message"
  }

  /** A line adds what was said in it, and nothing if nothing was or if it cannot be read. */
  lemma ConversationNext(lines: seq<Line>, line: Line, e: Entry)
    ensures ContextOf(lines + [line], e)
      == if line.Record? && IsSaid(line.rec.role, line.rec.text, EventOfRecord(line.rec))
         then ContextOf(lines, e) + [Said(line.rec.role, line.rec.text)]
         else ContextOf(lines, e)
  {
    assert (lines + [line])[..|lines|] == lines;
    if line.Record? {
      SaidIsContext(line.rec.role, line.rec.text, EventOfRecord(line.rec));
    }
  }

  // ---------- appends and the next answer ----------

  lemma SaidConversation(s: State, e: Entry, role: string, text: string, opts: AppendOptions, at: int, now: int)
    requires Inv(s) && Names(s, e) && IsSaid(role, text, opts.eventType)
    ensures var s' := Appended(s, e, role, text, opts, at, now);
      Conversation(s', s'.store[e.sessionKey]) == Conversation(s, s.store[e.sessionKey]) + [Said(role, text)]
  {
    var own := s.store[e.sessionKey];
    var s' := Appended(s, e, role, text, opts, at, now);
    var rec := RecordOf(e, role, text, opts, at);
    SaidByOptions(role, text, opts);
    SaidIsContext(role, text, EventType(opts));
    BlankTrims(text);
    WrittenContext(s, own, rec);
    RecordContext(e, own, role, text, opts, at);
    assert Written(s, own, rec) == Written(s, e, rec);
    SameContext(Transcript(s', e.sessionID), own, s'.store[e.sessionKey]);
  }

  /** The last n elements. */
  function Last<T>(xs: seq<T>, n: nat): seq<T> {
    if |xs| <= n then xs else xs[|xs| - n..]
  }

  lemma LastNext<T>(xs: seq<T>, x: T, n: nat)
    requires n > 0
    ensures Last(xs + [x], n) == Last(Last(xs, n) + [x], n)
    ensures var last := Last(xs + [x], n); last != [] && last[|last| - 1] == x
  {}

  lemma AnswerIsLast(s: State, key: string)
    requires Inv(s) && key in s.store
    ensures ContextAnswer(s, key).Some?
    ensures ContextAnswer(s, key).value.0 == Last(Conversation(s, s.store[key]), s.budget.historyLimit)
  {
    AnswerUnderInv(s, key);
  }

  /** An append changes the entry of its own session only, and stamps it when something was said. */
  lemma AppendTouchesOne(s: State, e: Entry, role: string, text: string, opts: AppendOptions, at: int, now: int)
    requires Inv(s) && Names(s, e)
    ensures var s' := Appended(s, e, role, text, opts, at, now);
      && s'.budget == s.budget && s'.store.Keys == s.store.Keys
      && (forall k | k in s.store && (k != e.sessionKey || !IsSaid(role, text, opts.eventType)) :: s'.store[k] == s.store[k])
      && (IsSaid(role, text, opts.eventType) ==>
            var own := s'.store[e.sessionKey];
            && own.updatedAt == now && Trusted(own, s.budget)
            && (own.sessionKey, own.sessionID, own.agentID)
               == (e.sessionKey, e.sessionID, s.store[e.sessionKey].agentID))
  {
    SaidByOptions(role, text, opts);
    BlankTrims(text);
  }

  /** What is said to a current session is the last message of its next context, behind the messages that
      were there, as far as the history limit has room. */
  lemma SaidIsAnswered(s: State, e: Entry, role: string, text: string, opts: AppendOptions, at: int, now: int)
    requires Inv(s) && Names(s, e) && Trusted(s.store[e.sessionKey], s.budget)
    requires IsSaid(role, text, opts.eventType)
    ensures var s' := Appended(s, e, role, text, opts, at, now);
      var before, after := ContextAnswer(s, e.sessionKey), ContextAnswer(s', e.sessionKey);
      && before.Some? && after.Some?
      && after.value.0 == Last(before.value.0 + [Said(role, text)], s.budget.historyLimit)
      && after.value.0 != [] && after.value.0[|after.value.0| - 1] == Said(role, text)
  {
    var s' := Appended(s, e, role, text, opts, at, now);
    SaidByOptions(role, text, opts);
    AppendKeepsInv(s, e, role, text, opts, at, now);
    BlankTrims(text);
    SaidConversation(s, e, role, text, opts, at, now);
    AnswerIsLast(s, e.sessionKey);
    AnswerIsLast(s', e.sessionKey);
    LastNext(Conversation(s, s.store[e.sessionKey]), Said(role, text), s.budget.historyLimit);
  }

  /** Anything else that is appended changes no session's context, current or not: other roles, other
      events, blank texts. */
  lemma OthersChangeNoAnswer(s: State, e: Entry, role: string, text: string, opts: AppendOptions, at: int, now: int, key: string)
    requires Normalised(s.budget) && !IsSaid(role, text, opts.eventType)
    ensures ContextAnswer(Appended(s, e, role, text, opts, at, now), key) == ContextAnswer(s, key)
  {
    SaidByOptions(role, text, opts);
    if !Skipped(text, opts) && key in s.store {
      var own, rec := s.store[key], RecordOf(e, role, text, opts, at);
      RecordContext(e, own, role, text, opts, at);
      if own.sessionID == e.sessionID {
        WrittenContext(s, own, rec);
        assert Written(s, own, rec) == Written(s, e, rec);
        assert Conversation(s, own) + [] == Conversation(s, own);
      } else {
        WrittenElsewhere(s, e, rec, own);
      }
      assert Rebuilt(Written(s, e, rec), own) == Rebuilt(s, own);
    }
  }

  // ---------- the notes ----------

  function NotesText(count: int, notes: string): string {
    "Earlier conversation covered " + Itoa(count) + " messages. Rolling notes:\n" + TrimSpace(notes)
  }

  lemma RenderedNotes(c: Cache)
    ensures RenderSummary(c) == if c.summarized == 0 || IsBlank(c.summary) then "" else NotesText(c.summarized, c.summary)
  {}

  lemma LeftOut(b: ContextBudget, msgs: seq<ContextMessage>)
    requires Normalised(b)
    ensures var left, c := |msgs| - b.historyLimit, Replay(b, msgs);
      if left <= 0 then c.summarized == 0
      else c.summarized == left && c.summary == SummaryOf(b, msgs[..left]) && !IsBlank(c.summary)
  {
    WindowConservation(b, msgs);
    SummaryNotBlank(b, Promoted(b, msgs));
  }

  /** Nothing while the history limit has room for all messages; beyond that the number of messages left out,
      and the notes on exactly those. */
  predicate IsNotesOn(notes: string, b: ContextBudget, msgs: seq<ContextMessage>)
    requires Normalised(b)
  {
    var left := |msgs| - b.historyLimit;
    notes == if left <= 0 then "" else NotesText(left, SummaryOf(b, msgs[..left]))
  }

  lemma NotesUnder(b: ContextBudget, msgs: seq<ContextMessage>)
    requires Normalised(b)
    ensures IsNotesOn(RenderSummary(Replay(b, msgs)), b, msgs)
  {
    LeftOut(b, msgs);
    RenderedNotes(Replay(b, msgs));
  }

  predicate AnswersNotes(s: State, key: string)
    requires Normalised(s.budget) && key in s.store
  {
    var answer := ContextAnswer(s, key);
    answer.Some? && IsNotesOn(answer.value.1, s.budget, Conversation(s, s.store[key]))
  }

  /** In every allowed run the second part of the answer are the notes on the messages left out of the first. */
  lemma AnswerNotes(s: State, ops: seq<Op>, key: string)
    requires Initial(s) && AllowedRun(s, ops) && key in Run(s, ops).store
    ensures AnswersNotes(Run(s, ops), key)
  {
    RunKeepsInv(s, ops);
    NotesUnderInv(Run(s, ops), key);
  }

  lemma NotesUnderInv(s: State, key: string)
    requires Inv(s) && key in s.store
    ensures AnswersNotes(s, key)
  {
    AnswerUnderInv(s, key);
    NotesUnder(s.budget, Conversation(s, s.store[key]));
  }

  // ---------- the record of an append ----------

  /** Nothing is written for a blank text that carries nothing else. */
  lemma EmptyAppendWritesNothing(s: State, e: Entry, role: string, text: string, opts: AppendOptions, at: int, now: int)
    requires Normalised(s.budget)
    requires TrimSpace(text) == "" && opts.toolCall == None && opts.usage == None && opts.metadata == map[]
    ensures Appended(s, e, role, text, opts, at, now) == s
  {
    BlankTrims(text);
  }

  /** The record of an append, from what was given. */
  predicate IsRecordOf(rec: MessageRecord, e: Entry, role: string, text: string, opts: AppendOptions, at: int) {
    && rec.schemaVersion == 2
    && rec.eventType == (if TrimSpace(opts.eventType) == "" then "message" else TrimSpace(opts.eventType))
    && rec.recordType == (if rec.eventType == "message" then "message" else "event")
    && rec.sessionID == e.sessionID && rec.sessionKey == e.sessionKey && rec.agentID == e.agentID
    && rec.role == role && rec.text == text && rec.aborted == opts.aborted && rec.at == at
    && rec.runID == TrimSpace(opts.runID) && rec.kind == TrimSpace(opts.kind) && rec.provider == TrimSpace(opts.provider)
    && rec.toolCall == opts.toolCall && rec.usage == opts.usage && rec.metadata == opts.metadata
  }

  lemma RecordCarries(e: Entry, role: string, text: string, opts: AppendOptions, at: int)
    ensures IsRecordOf(RecordOf(e, role, text, opts, at), e, role, text, opts, at)
  {
    BlankTrims(opts.eventType);
  }

  /** Any other append writes one record at the end of its session's transcript, carrying what was given, and
      touches no other transcript. */
  lemma AppendWritesRecord(s: State, e: Entry, role: string, text: string, opts: AppendOptions, at: int, now: int)
    requires Normalised(s.budget)
    requires TrimSpace(text) != "" || opts.toolCall != None || opts.usage != None || opts.metadata != map[]
    ensures var s' := Appended(s, e, role, text, opts, at, now);
      && (exists rec | IsRecordOf(rec, e, role, text, opts, at) ::
            Transcript(s', e.sessionID) == Transcript(s, e.sessionID) + [Record(rec)])
      && forall id | id != e.sessionID :: Transcript(s', id) == Transcript(s, id)
  {
    BlankTrims(text);
    RecordCarries(e, role, text, opts, at);
    AppendTranscripts(s, e, role, text, opts, at, now);
  }

  lemma AppendTranscripts(s: State, e: Entry, role: string, text: string, opts: AppendOptions, at: int, now: int)
    requires Normalised(s.budget) && !Skipped(text, opts)
    ensures Appended(s, e, role, text, opts, at, now).transcripts
         == Written(s, e, RecordOf(e, role, text, opts, at)).transcripts
  {}

  /** The record has fields of the second schema. */
  predicate HasDetails(rec: MessageRecord) {
    rec.runID != "" || rec.kind != "" || rec.provider != "" || rec.toolCall != None || rec.usage != None
    || rec.metadata != map[]
  }

  /** Reading a record back fills only what it lacks, and filling twice is filling once. */
  lemma NormalizeKeepsGiven(rec: MessageRecord, e: Entry)
    ensures var n := NormalizeRecord(rec, e);
      && NormalizeRecord(n, e) == n
      && (rec.sessionID != "" ==> n.sessionID == rec.sessionID) && (rec.sessionID == "" ==> n.sessionID == e.sessionID)
      && (rec.sessionKey != "" ==> n.sessionKey == rec.sessionKey) && (rec.sessionKey == "" ==> n.sessionKey == e.sessionKey)
      && (rec.agentID != "" ==> n.agentID == rec.agentID) && (rec.agentID == "" ==> n.agentID == e.agentID)
      && n.eventType == EventOfRecord(rec) && n.recordType == (if rec.recordType == "" then "message" else rec.recordType)
      && n.schemaVersion == (if rec.schemaVersion != 0 then rec.schemaVersion
                             else if HasDetails(rec) || EventOfRecord(rec) != "message" then 2 else 1)
      && (n.role, n.text, n.at, n.runID, n.kind, n.provider, n.aborted, n.toolCall, n.usage, n.metadata)
         == (rec.role, rec.text, rec.at, rec.runID, rec.kind, rec.provider, rec.aborted, rec.toolCall, rec.usage, rec.metadata)
  {}
}
