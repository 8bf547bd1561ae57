/** What the event-stream readers answer, said of the stream's blocks and decoded messages, and that a
    printed stream is read back (internal/mcp/client.go, readEventStreamResult and readLoopSSE). */
module McpEventMeaning {
  import opened Text
  import opened McpProtocol
  import opened McpEventStream

  type Decoder = string -> Option<RpcMessage>

  // ---------- what a block holds ----------

  /** The message of a block that has data and is no endpoint announcement. */
  function MessageIn(block: seq<string>, decode: Decoder): Option<RpcMessage> {
    var e := EventOf(block);
    var data := TrimSpace(e.data);
    if data == "" || EqualFold(e.name, "endpoint") || (e.name == "" && !HasPrefix(data, "{")) then None
    else decode(data)
  }

  /** The block answers the request. */
  predicate IsResponse(block: seq<string>, requestID: string, decode: Decoder) {
    var m := MessageIn(block, decode);
    m.Some? && m.value.id.Some? && NormalizeID(m.value.id.value) == Some(requestID)
  }

  /** Its error if it has one, else its result if that is not empty. */
  predicate IsAnswerOf(r: StreamResult, msg: RpcMessage) {
    if msg.error.Some? then r == RpcError(msg.error.value)
    else if msg.result == "" then r == EmptyResult
    else r == Result(msg.result)
  }

  /** The block is a notification: a message without an id, with a method. */
  predicate IsNotice(block: seq<string>, decode: Decoder) {
    var m := MessageIn(block, decode);
    m.Some? && m.value.id.None? && TrimSpace(m.value.name) != ""
  }

  /** The notifications of blocks, in order. */
  function NotesIn(blocks: seq<seq<string>>, decode: Decoder): seq<Note> {
    if blocks == [] then [] else
      var before, last := NotesIn(blocks[..|blocks| - 1], decode), blocks[|blocks| - 1];
      if IsNotice(last, decode) then
        before + [Note(MessageIn(last, decode).value.name, MessageIn(last, decode).value.params)]
      else before
  }

  /** The position of the first response, or the number of blocks. */
  function FirstResponse(blocks: seq<seq<string>>, requestID: string, decode: Decoder): (k: nat)
    ensures k <= |blocks| && (k < |blocks| ==> IsResponse(blocks[k], requestID, decode))
    ensures forall i | 0 <= i < k :: !IsResponse(blocks[i], requestID, decode)
  {
    if blocks == [] || IsResponse(blocks[0], requestID, decode) then 0
    else 1 + FirstResponse(blocks[1..], requestID, decode)
  }

  /** The answer comes from the first response, after the notifications before it; without a response the
      stream's end is the answer, after all notifications. */
  predicate IsFirstAnswer(r: StreamResult, notes: seq<Note>, blocks: seq<seq<string>>, ending: Ending,
                          requestID: string, decode: Decoder) {
    var k := FirstResponse(blocks, requestID, decode);
    && notes == NotesIn(blocks[..k], decode)
    && if k < |blocks| then IsAnswerOf(r, MessageIn(blocks[k], decode).value)
       else r == if ending.EOF? then NoAsyncResponse else ReadFailed(ending.error)
  }

  lemma JudgeMeans(block: seq<string>, requestID: string, decode: Decoder)
    ensures var v := Judge(EventOf(block), requestID, decode);
      && (v.Final? <==> IsResponse(block, requestID, decode))
      && (v.Final? ==> IsAnswerOf(v.r, MessageIn(block, decode).value))
      && (v.Notify? <==> IsNotice(block, decode))
      && (v.Notify? ==> v.note == Note(MessageIn(block, decode).value.name, MessageIn(block, decode).value.params))
  {
    BlankTrims(EventOf(block).data);
    var m := MessageIn(block, decode);
    if m.Some? {
      BlankTrims(m.value.name);
    }
  }

  lemma {:induction false} NotesMean(blocks: seq<seq<string>>, requestID: string, decode: Decoder)
    ensures Notes(Verdicts(blocks, requestID, decode)) == NotesIn(blocks, decode)
  {
    if blocks != [] {
      var init, last := blocks[..|blocks| - 1], blocks[|blocks| - 1];
      NotesMean(init, requestID, decode);
      assert blocks == init + [last];
      VerdictsNext(init, last, requestID, decode);
      NotesNext(Verdicts(init, requestID, decode), Judge(EventOf(last), requestID, decode));
      JudgeMeans(last, requestID, decode);
    }
  }

  lemma FirstFinalIs(vs: seq<Verdict>, k: nat)
    requires k <= |vs| && (k < |vs| ==> vs[k].Final?)
    requires forall i | 0 <= i < k :: !vs[i].Final?
    ensures FirstFinal(vs) == k
  {}

  lemma FirstMeans(blocks: seq<seq<string>>, requestID: string, decode: Decoder)
    ensures FirstFinal(Verdicts(blocks, requestID, decode)) == FirstResponse(blocks, requestID, decode)
  {
    var vs := Verdicts(blocks, requestID, decode);
    var k := FirstResponse(blocks, requestID, decode);
    forall j | 0 <= j < |vs| ensures vs[j].Final? <==> IsResponse(blocks[j], requestID, decode) {
      JudgeMeans(blocks[j], requestID, decode);
    }
    FirstFinalIs(vs, k);
  }

  /** What readEventStreamResult answers with, by its meaning: `ReadEventStreamResult` returns this pair. */
  lemma BatchMeans(s: string, ending: Ending, requestID: string, decode: Decoder)
    ensures var answer := Batch(s, ending, requestID, decode);
      IsFirstAnswer(answer.0, answer.1, Considered(Lines(s), ending), ending, requestID, decode)
  {
    var blocks := Considered(Lines(s), ending);
    var k := FirstResponse(blocks, requestID, decode);
    FirstMeans(blocks, requestID, decode);
    NotesMean(blocks[..k], requestID, decode);
    assert Verdicts(blocks, requestID, decode)[..k] == Verdicts(blocks[..k], requestID, decode);
    if k < |blocks| {
      JudgeMeans(blocks[k], requestID, decode);
    }
  }

  // ---------- a printed stream is read back ----------

  /** A line of a stream: one that ends where it is meant to. */
  predicate IsStreamLine(line: string) {
    Without(line, '\n') && (line == "" || line[|line| - 1] !in LINE_END)
  }

  predicate IsLineEnd(eol: string) {
    eol == "\n" || eol == "\r\n"
  }

  /** Lines with their ends. */
  function Printed(lines: seq<string>, eol: string): string {
    if lines == [] then "" else lines[0] + eol + Printed(lines[1..], eol)
  }

  lemma TrimmedEnd(line: string, eol: string)
    requires IsStreamLine(line) && IsLineEnd(eol)
    ensures TrimRight(line + eol, LINE_END) == line
  {
    TrimRightDrops(line, eol, LINE_END);
  }

  /** Printed lines are read back, with either line end. */
  lemma {:induction false} LinesOfPrinted(lines: seq<string>, eol: string)
    requires IsLineEnd(eol) && forall i | 0 <= i < |lines| :: IsStreamLine(lines[i])
    ensures Lines(Printed(lines, eol)) == lines
  {
    if lines != [] {
      var rest := Printed(lines[1..], eol);
      NextPrinted(lines[0], eol, rest);
      LinesOfPrinted(lines[1..], eol);
      assert lines == [lines[0]] + lines[1..];
    }
  }

  lemma NextPrinted(line: string, eol: string, rest: string)
    requires IsLineEnd(eol) && IsStreamLine(line)
    ensures Lines(line + eol + rest) == [line] + Lines(rest)
  {
    var head := line + eol[..|eol| - 1];
    var s := line + eol + rest;
    assert s == head + ['\n'] + rest;
    IndexOfCut(head, '\n', rest);
    assert s[..|head| + 1] == line + eol;
    TrimmedEnd(line, eol);
  }

  predicate IsField(value: string) {
    Without(value, '\n') && IsTrimmed(value, WHITE)
  }

  function NameText(name: string): seq<string> {
    if name == "" then [] else ["event: " + name]
  }

  function DataText(value: string): string {
    "data: " + value
  }

  /** An event as a server prints it: its name if it has one, and each line of its data. */
  function EventLines(name: string, data: seq<string>): seq<string> {
    NameText(name) + seq(|data|, i requires 0 <= i < |data| => DataText(data[i]))
  }

  lemma DataLine(block: seq<string>, value: string)
    requires IsField(value)
    ensures NameOf(block + [DataText(value)]) == NameOf(block)
    ensures DataOf(block + [DataText(value)]) == DataOf(block) + [value]
  {
    var line := DataText(value);
    NextField(block, line);
    assert line[..5] == "data:" && line[5..] == " " + value;
    TrimUnique(" ", value, "", WHITE);
    assert " " + value + "" == " " + value;
    assert line[0] != EventField()[0];
  }

  lemma NameLine(name: string)
    requires IsField(name)
    ensures NameOf(NameText(name)) == name && DataOf(NameText(name)) == []
  {
    if name != "" {
      var line := "event: " + name;
      NextField([], line);
      assert [] + [line] == [line];
      assert line[..6] == "event:" && line[6..] == " " + name;
      TrimUnique(" ", name, "", WHITE);
      assert " " + name + "" == " " + name;
      assert line[0] != DataField()[0];
    }
  }

  lemma EventLinesNext(name: string, data: seq<string>, value: string)
    ensures EventLines(name, data + [value]) == EventLines(name, data) + [DataText(value)]
    ensures EventLines(name, []) == NameText(name)
  {}

  /** The fields of a printed event are read back. */
  lemma {:induction false} EventOfPrinted(name: string, data: seq<string>)
    requires IsField(name) && forall i | 0 <= i < |data| :: IsField(data[i])
    ensures NameOf(EventLines(name, data)) == name && DataOf(EventLines(name, data)) == data
  {
    if data == [] {
      NameLine(name);
      EventLinesNext(name, [], "");
    } else {
      var init, last := data[..|data| - 1], data[|data| - 1];
      assert data == init + [last];
      EventOfPrinted(name, init);
      DataLine(EventLines(name, init), last);
      EventLinesNext(name, init, last);
    }
  }

  /** An event with the lines of its data. */
  datatype Sent = Sent(name: string, data: seq<string>)

  predicate IsSendable(e: Sent) {
    IsField(e.name) && e.data != [] && forall i | 0 <= i < |e.data| :: IsField(e.data[i])
  }

  predicate AreSendable(events: seq<Sent>) {
    forall i | 0 <= i < |events| :: IsSendable(events[i])
  }

  /** Events as lines, a blank one behind each. */
  function SentLines(events: seq<Sent>): seq<string> {
    if events == [] then [] else
      var last := events[|events| - 1];
      SentLines(events[..|events| - 1]) + EventLines(last.name, last.data) + [""]
  }

  function Received(e: Sent): Event {
    Event(e.name, Join(e.data, '\n'))
  }

  function AllReceived(events: seq<Sent>): seq<Event> {
    seq(|events|, i requires 0 <= i < |events| => Received(events[i]))
  }

  lemma EventLinesShape(name: string, data: seq<string>)
    requires IsField(name) && forall i | 0 <= i < |data| :: IsField(data[i])
    ensures forall i | 0 <= i < |EventLines(name, data)| ::
      EventLines(name, data)[i] != "" && IsStreamLine(EventLines(name, data)[i])
  {
    var lines := EventLines(name, data);
    forall i | 0 <= i < |lines| ensures lines[i] != "" && IsStreamLine(lines[i]) {
      if name != "" && i == 0 {
        FieldEnd("event: ", name);
      } else {
        var value := data[if name == "" then i else i - 1];
        assert lines[i] == DataText(value);
        FieldEnd("data: ", value);
      }
    }
  }

  lemma FieldEnd(head: string, value: string)
    requires IsField(value) && IsStreamLine(head) && head != ""
    ensures IsStreamLine(head + value) && head + value != ""
  {
    var line := head + value;
    if value != "" {
      assert line[|line| - 1] == value[|value| - 1] && value[|value| - 1] !in WHITE;
    } else {
      assert line == head;
    }
  }

  lemma {:induction false} BlockEnds(lines: seq<string>, block: seq<string>)
    requires forall i | 0 <= i < |block| :: block[i] != ""
    ensures Blocks(lines + block) == Blocks(lines) && Tail(lines + block) == Tail(lines) + block
  {
    if block == [] {
      assert lines + block == lines && Tail(lines) + block == Tail(lines);
    } else {
      var init, last := block[..|block| - 1], block[|block| - 1];
      assert block == init + [last];
      Associative(lines, init, [last]);
      Associative(Tail(lines), init, [last]);
      BlockEnds(lines, init);
      NextLine(lines + init, last);
    }
  }

  lemma EventEnds(before: seq<string>, block: seq<string>)
    requires Tail(before) == [] && forall i | 0 <= i < |block| :: block[i] != ""
    ensures EventsOf(Blocks(before + block + [""])) == EventsOf(Blocks(before)) + [EventOf(block)]
    ensures Tail(before + block + [""]) == []
  {
    BlockEnds(before, block);
    assert [] + block == block;
    NextLine(before + block, "");
    EventsNext(Blocks(before), block);
  }

  lemma AllReceivedNext(events: seq<Sent>, e: Sent)
    ensures AllReceived(events + [e]) == AllReceived(events) + [Received(e)]
  {}

  /** The events of a printed stream are read back, and nothing is left over. */
  lemma {:induction false} EventsOfSent(events: seq<Sent>)
    requires AreSendable(events)
    ensures EventsOf(Blocks(SentLines(events))) == AllReceived(events) && Tail(SentLines(events)) == []
  {
    if events != [] {
      var init, last := events[..|events| - 1], events[|events| - 1];
      assert events == init + [last] && IsSendable(last);
      EventsOfSent(init);
      EventLinesShape(last.name, last.data);
      EventEnds(SentLines(init), EventLines(last.name, last.data));
      EventOfPrinted(last.name, last.data);
      AllReceivedNext(init, last);
    }
  }

  lemma {:induction false} SentLinesShape(events: seq<Sent>)
    requires AreSendable(events)
    ensures forall i | 0 <= i < |SentLines(events)| :: IsStreamLine(SentLines(events)[i])
  {
    if events != [] {
      var init, last := events[..|events| - 1], events[|events| - 1];
      SentLinesShape(init);
      EventLinesShape(last.name, last.data);
    }
  }

  /** Whatever events a server prints, with either line end, both readers find exactly them, in order. */
  lemma StreamRoundTrip(events: seq<Sent>, eol: string)
    requires AreSendable(events) && IsLineEnd(eol)
    ensures EventsOf(Blocks(Lines(Printed(SentLines(events), eol)))) == AllReceived(events)
    ensures Tail(Lines(Printed(SentLines(events), eol))) == []
  {
    SentLinesShape(events);
    LinesOfPrinted(SentLines(events), eol);
    EventsOfSent(events);
  }
}
