/** Server-sent events as the MCP client reads them (internal/mcp/client.go, readEventStreamResult,
    readLoopSSE, handleSSEEvent; WHATWG HTML Living Standard, section 9.2.6). The loops read line by
    line; the reference cuts the whole stream into lines, blocks and events first. */
module McpEventStream {
  import opened Text
  import opened McpProtocol

  /** How a finite stream ends. */
  datatype Ending = EOF | Broken(error: string)

  /** A decoded JSON-RPC message; decoding itself is a parameter. */
  datatype RpcMessage = RpcMessage(id: Option<RpcId>, name: string, params: string, result: string, error: Option<string>)

  datatype Note = Note(name: string, params: string)

  datatype StreamResult =
    | Result(body: string)
    | RpcError(error: string)
    | EmptyResult
    | NoAsyncResponse
    | ReadFailed(error: string)

  datatype Event = Event(name: string, data: string)

  /** What one event means to the request. */
  datatype Verdict = Skip | Notify(note: Note) | Final(r: StreamResult)

  // ---------- the reference: lines, blocks, events ----------

  /** The complete lines of a stream; an unfinished last line is never seen. */
  function Lines(s: string): seq<string>
    decreases |s|
  {
    var i := IndexOf(s, '\n');
    if i == |s| then [] else [TrimRight(s[..i + 1], LINE_END)] + Lines(s[i + 1..])
  }

  /** The blocks of lines that end with a blank line. */
  function Blocks(lines: seq<string>): seq<seq<string>> {
    if lines == [] then [] else
      var init := lines[..|lines| - 1];
      if lines[|lines| - 1] == "" then Blocks(init) + [Tail(init)] else Blocks(init)
  }

  /** The lines after the last blank one. */
  function Tail(lines: seq<string>): seq<string> {
    if lines == [] || lines[|lines| - 1] == "" then [] else Tail(lines[..|lines| - 1]) + [lines[|lines| - 1]]
  }

  function EventField(): string { "event:" }
  function DataField(): string { "data:" }
  function Endpoint(): string { "endpoint" }

  function FieldValue(line: string, field: string): string
    requires HasPrefix(line, field)
  {
    TrimSpace(line[|field|..])
  }

  function NameOf(block: seq<string>): string {
    if block == [] then "" else
      var last := block[|block| - 1];
      if HasPrefix(last, EventField()) then FieldValue(last, EventField()) else NameOf(block[..|block| - 1])
  }

  function DataOf(block: seq<string>): seq<string> {
    if block == [] then [] else
      var last := block[|block| - 1];
      DataOf(block[..|block| - 1]) + if HasPrefix(last, DataField()) then [FieldValue(last, DataField())] else []
  }

  function EventOf(block: seq<string>): Event {
    Event(NameOf(block), Join(DataOf(block), '\n'))
  }

  /** Endpoint announcements are no messages. */
  predicate IsEndpoint(e: Event) {
    EqualFold(e.name, Endpoint()) || (e.name == "" && !HasPrefix(TrimSpace(e.data), "{"))
  }

  function Judge(e: Event, requestID: string, decode: string -> Option<RpcMessage>): Verdict {
    if IsBlank(e.data) || IsEndpoint(e) then Skip else
      match decode(TrimSpace(e.data))
      case None => Skip
      case Some(msg) => JudgeMessage(msg, requestID)
  }

  function JudgeMessage(msg: RpcMessage, requestID: string): Verdict {
    if msg.id.None? then (if IsBlank(msg.name) then Skip else Notify(Note(msg.name, msg.params)))
    else if NormalizeID(msg.id.value) != Some(requestID) then Skip
    else if msg.error.Some? then Final(RpcError(msg.error.value))
    else if msg.result == "" then Final(EmptyResult)
    else Final(Result(msg.result))
  }

  function Verdicts(blocks: seq<seq<string>>, requestID: string, decode: string -> Option<RpcMessage>): (vs: seq<Verdict>)
    ensures |vs| == |blocks|
  {
    seq(|blocks|, i requires 0 <= i < |blocks| => Judge(EventOf(blocks[i]), requestID, decode))
  }

  /** The position of the first final verdict, or the number of verdicts. */
  function FirstFinal(vs: seq<Verdict>): (k: nat)
    ensures k <= |vs| && (k < |vs| ==> vs[k].Final?)
    ensures forall i | 0 <= i < k :: !vs[i].Final?
  {
    if vs == [] || vs[0].Final? then 0 else 1 + FirstFinal(vs[1..])
  }

  function Notes(vs: seq<Verdict>): seq<Note> {
    if vs == [] then [] else
      var before, last := Notes(vs[..|vs| - 1]), vs[|vs| - 1];
      if last.Notify? then before + [last.note] else before
  }

  /** The events readEventStreamResult considers: at the end of input also an unfinished one. */
  function Considered(lines: seq<string>, ending: Ending): seq<seq<string>> {
    Blocks(lines) + if ending.EOF? then [Tail(lines)] else []
  }

  /** The answer to the request: the first response for it; and the notifications before it. */
  function Batch(s: string, ending: Ending, requestID: string, decode: string -> Option<RpcMessage>): (StreamResult, seq<Note>) {
    var vs := Verdicts(Considered(Lines(s), ending), requestID, decode);
    var k := FirstFinal(vs);
    (if k < |vs| then vs[k].r else if ending.EOF? then NoAsyncResponse else ReadFailed(ending.error), Notes(vs[..k]))
  }

  // ---------- the cut is the only one ----------

  /** The lines back from the blocks and the tail. */
  function Unblock(blocks: seq<seq<string>>, tail: seq<string>): seq<string> {
    if blocks == [] then tail else blocks[0] + [""] + Unblock(blocks[1..], tail)
  }

  predicate NoBlankLine(block: seq<string>) {
    forall i | 0 <= i < |block| :: block[i] != ""
  }

  lemma UnblockLast(blocks: seq<seq<string>>, block: seq<string>, tail: seq<string>)
    ensures Unblock(blocks + [block], tail) == Unblock(blocks, block + [""] + tail)
  {
    if blocks != [] {
      assert (blocks + [block])[1..] == blocks[1..] + [block];
    } else {
      assert [block][1..] == [];
    }
  }

  /** Blocks and tail put together give the lines back, and none of them holds a blank line. */
  lemma {:induction false} BlocksExact(lines: seq<string>)
    ensures Unblock(Blocks(lines), Tail(lines)) == lines
    ensures NoBlankLine(Tail(lines)) && forall i | 0 <= i < |Blocks(lines)| :: NoBlankLine(Blocks(lines)[i])
  {
    if lines != [] {
      var init, last := lines[..|lines| - 1], lines[|lines| - 1];
      BlocksExact(init);
      assert lines == init + [last];
      if last == "" {
        UnblockLast(Blocks(init), Tail(init), []);
        UnblockTail(Blocks(init), Tail(init), [""]);
        assert Tail(init) + [""] + [] == Tail(init) + [""];
      } else {
        UnblockTail(Blocks(init), Tail(init), [last]);
      }
    }
  }

  lemma UnblockTail(blocks: seq<seq<string>>, tail: seq<string>, more: seq<string>)
    ensures Unblock(blocks, tail + more) == Unblock(blocks, tail) + more
  {}

  // ---------- the loops refine the reference ----------

  lemma NextLine(lines: seq<string>, line: string)
    ensures Blocks(lines + [line]) == if line == "" then Blocks(lines) + [Tail(lines)] else Blocks(lines)
    ensures Tail(lines + [line]) == if line == "" then [] else Tail(lines) + [line]
  {
    assert (lines + [line])[..|lines|] == lines;
  }

  lemma NextField(block: seq<string>, line: string)
    ensures NameOf(block + [line]) == if HasPrefix(line, EventField()) then FieldValue(line, EventField()) else NameOf(block)
    ensures DataOf(block + [line]) == DataOf(block) + if HasPrefix(line, DataField()) then [FieldValue(line, DataField())] else []
  {
    assert (block + [line])[..|block|] == block;
  }

  /** What was cut off so far stays cut off the same way. */
  lemma {:induction false} BlocksPrefix(lines: seq<string>, more: seq<string>)
    ensures Blocks(lines) <= Blocks(lines + more)
  {
    if more == [] {
      assert lines + more == lines;
    } else {
      var init, last := more[..|more| - 1], more[|more| - 1];
      BlocksPrefix(lines, init);
      assert lines + more == (lines + init) + [last];
      NextLine(lines + init, last);
    }
  }

  lemma NotesNext(vs: seq<Verdict>, v: Verdict)
    ensures Notes(vs + [v]) == if v.Notify? then Notes(vs) + [v.note] else Notes(vs)
  {
    assert (vs + [v])[..|vs|] == vs;
  }

  lemma VerdictsNext(blocks: seq<seq<string>>, block: seq<string>, requestID: string, decode: string -> Option<RpcMessage>)
    ensures Verdicts(blocks + [block], requestID, decode)
      == Verdicts(blocks, requestID, decode) + [Judge(EventOf(block), requestID, decode)]
  {}

  predicate NoneFinal(vs: seq<Verdict>) {
    forall i | 0 <= i < |vs| :: !vs[i].Final?
  }

  /** The blocks judged so far are where the batch begins. */
  lemma JudgedPrefix(seen: seq<string>, more: seq<string>, ending: Ending, requestID: string, decode: string -> Option<RpcMessage>)
    ensures var judged, all := Verdicts(Blocks(seen), requestID, decode), Verdicts(Considered(seen + more, ending), requestID, decode);
      judged <= all
  {
    BlocksPrefix(seen, more);
  }

  lemma PrefixDecides(judged: seq<Verdict>, all: seq<Verdict>)
    requires judged <= all && judged != [] && NoneFinal(judged[..|judged| - 1]) && judged[|judged| - 1].Final?
    ensures FirstFinal(all) == |judged| - 1 && all[|judged| - 1] == judged[|judged| - 1]
    ensures all[..|judged| - 1] == judged[..|judged| - 1]
  {
    assert forall i | 0 <= i < |judged| - 1 :: all[i] == judged[..|judged| - 1][i];
  }

  lemma NoneDecides(vs: seq<Verdict>)
    requires NoneFinal(vs)
    ensures FirstFinal(vs) == |vs|
  {}

  /** A response found in the last judged block answers the request. */
  lemma FoundDecides(s: string, seen: seq<string>, more: seq<string>, ending: Ending, requestID: string,
                     decode: string -> Option<RpcMessage>, before: seq<Verdict>, r: StreamResult)
    requires Lines(s) == seen + more && NoneFinal(before)
    requires Verdicts(Blocks(seen), requestID, decode) == before + [Final(r)]
    ensures Batch(s, ending, requestID, decode) == (r, Notes(before))
  {
    JudgedPrefix(seen, more, ending, requestID, decode);
    var judged := before + [Final(r)];
    assert judged[..|judged| - 1] == before;
    PrefixDecides(judged, Verdicts(Considered(Lines(s), ending), requestID, decode));
  }

  /** At the end of the stream, with no response in a finished block. */
  lemma EndDecides(s: string, ending: Ending, requestID: string, decode: string -> Option<RpcMessage>)
    requires NoneFinal(Verdicts(Blocks(Lines(s)), requestID, decode))
    ensures var before := Verdicts(Blocks(Lines(s)), requestID, decode);
      var last := Judge(EventOf(Tail(Lines(s))), requestID, decode);
      Batch(s, ending, requestID, decode)
      == if ending.Broken? then (ReadFailed(ending.error), Notes(before))
         else if last.Final? then (last.r, Notes(before))
         else (NoAsyncResponse, Notes(before + [last]))
  {
    var before := Verdicts(Blocks(Lines(s)), requestID, decode);
    var all := Verdicts(Considered(Lines(s), ending), requestID, decode);
    if ending.Broken? {
      assert Blocks(Lines(s)) + [] == Blocks(Lines(s));
      NoneDecides(before);
      assert before[..|before|] == before;
    } else {
      VerdictsNext(Blocks(Lines(s)), Tail(Lines(s)), requestID, decode);
      var last := all[|before|];
      assert all == before + [last];
      if last.Final? {
        assert all[..|all| - 1] == before;
        PrefixDecides(all, all);
      } else {
        NoneDecides(all);
        assert all[..|all|] == all;
      }
    }
  }

  /** The flush of an event: a response for the request, or perhaps a notification. */
  method Flush(event: string, dataLines: seq<string>, requestID: string, decode: string -> Option<RpcMessage>, sofar: seq<Note>)
    returns (found: Option<StreamResult>, notes: seq<Note>)
    ensures var v := Judge(Event(event, Join(dataLines, '\n')), requestID, decode);
      && found == (if v.Final? then Some(v.r) else None)
      && notes == if v.Notify? then sofar + [v.note] else sofar
  {
    found, notes := None, sofar;
    if |dataLines| == 0 {
      return;
    }
    BlankTrims(Join(dataLines, '\n'));
    var data := TrimSpace(Join(dataLines, '\n'));
    if data == "" {
      return;
    }
    if EqualFold(event, Endpoint()) || (event == "" && !HasPrefix(data, "{")) {
      return;
    }
    var decoded := decode(data);
    if decoded.None? {
      return;
    }
    var msg := decoded.value;
    if msg.id.None? {
      if !IsBlank(msg.name) {
        notes := notes + [Note(msg.name, msg.params)];
      }
      return;
    }
    var id := NormalizeID(msg.id.value);
    if id.None? || id.value != requestID {
      return;
    }
    if msg.error.Some? {
      return Some(RpcError(msg.error.value)), notes;
    }
    if msg.result == "" {
      return Some(EmptyResult), notes;
    }
    found := Some(Result(msg.result));
  }

  /** One line read into the event under construction. */
  method ReadField(event: string, dataLines: seq<string>, line: string, ghost block: seq<string>)
    returns (event': string, dataLines': seq<string>)
    requires line != "" && event == NameOf(block) && dataLines == DataOf(block)
    ensures event' == NameOf(block + [line]) && dataLines' == DataOf(block + [line])
  {
    event', dataLines' := event, dataLines;
    NextField(block, line);
    if line[0] == ':' {
      return;
    }
    if HasPrefix(line, EventField()) {
      event' := FieldValue(line, EventField());
      return;
    }
    if HasPrefix(line, DataField()) {
      dataLines' := dataLines + [FieldValue(line, DataField())];
    }
  }

  /** bufio.Reader.ReadString('\n') and the trimming of the line's end */
  method ReadLine(rest: string) returns (line: Option<string>, rest': string)
    ensures Lines(rest) == if line.None? then [] else [line.value] + Lines(rest')
    ensures line.Some? ==> |rest'| < |rest|
  {
    var i := IndexOf(rest, '\n');
    if i == |rest| {
      return None, "";
    }
    line, rest' := Some(TrimRight(rest[..i + 1], LINE_END)), rest[i + 1..];
  }

  /** The end of the stream: at EOF the event under construction is flushed. */
  method Finish(s: string, ending: Ending, event: string, dataLines: seq<string>, requestID: string,
                decode: string -> Option<RpcMessage>, sofar: seq<Note>) returns (r: StreamResult, notes: seq<Note>)
    requires event == NameOf(Tail(Lines(s))) && dataLines == DataOf(Tail(Lines(s)))
    requires Unanswered(Lines(s), requestID, decode, sofar)
    ensures (r, notes) == Batch(s, ending, requestID, decode)
  {
    EndDecides(s, ending, requestID, decode);
    if ending.Broken? {
      return ReadFailed(ending.error), sofar;
    }
    NotesNext(Verdicts(Blocks(Lines(s)), requestID, decode), Judge(EventOf(Tail(Lines(s))), requestID, decode));
    var found;
    found, notes := Flush(event, dataLines, requestID, decode, sofar);
    r := if found.Some? then found.value else NoAsyncResponse;
  }

  /** A blank line finishes the block under construction. */
  lemma JudgeBlock(seen: seq<string>, requestID: string, decode: string -> Option<RpcMessage>)
    ensures var judged, v := Verdicts(Blocks(seen), requestID, decode), Judge(EventOf(Tail(seen)), requestID, decode);
      && Tail(seen + [""]) == []
      && Verdicts(Blocks(seen + [""]), requestID, decode) == judged + [v]
      && Notes(judged + [v]) == if v.Notify? then Notes(judged) + [v.note] else Notes(judged)
  {
    NextLine(seen, "");
    VerdictsNext(Blocks(seen), Tail(seen), requestID, decode);
    NotesNext(Verdicts(Blocks(seen), requestID, decode), Judge(EventOf(Tail(seen)), requestID, decode));
  }

  /** The events of the lines read so far: none was a response, and their notifications were emitted. */
  ghost predicate Unanswered(seen: seq<string>, requestID: string, decode: string -> Option<RpcMessage>, notes: seq<Note>) {
    var judged := Verdicts(Blocks(seen), requestID, decode);
    NoneFinal(judged) && notes == Notes(judged)
  }

  /** A blank line was read: the event under construction is flushed. */
  method EndEvent(s: string, rest: string, ending: Ending, event: string, dataLines: seq<string>, requestID: string,
                  decode: string -> Option<RpcMessage>, sofar: seq<Note>, ghost seen: seq<string>)
    returns (found: Option<StreamResult>, notes: seq<Note>)
    requires Lines(s) == seen + [""] + Lines(rest)
    requires event == NameOf(Tail(seen)) && dataLines == DataOf(Tail(seen))
    requires Unanswered(seen, requestID, decode, sofar)
    ensures found.Some? ==> (found.value, notes) == Batch(s, ending, requestID, decode)
    ensures found.None? ==> Unanswered(seen + [""], requestID, decode, notes)
  {
    JudgeBlock(seen, requestID, decode);
    found, notes := Flush(event, dataLines, requestID, decode, sofar);
    if found.Some? {
      FoundDecides(s, seen + [""], Lines(rest), ending, requestID, decode,
                   Verdicts(Blocks(seen), requestID, decode), found.value);
    }
  }

  method ReadEventStreamResult(s: string, ending: Ending, requestID: string, decode: string -> Option<RpcMessage>)
    returns (r: StreamResult, notes: seq<Note>)
    ensures (r, notes) == Batch(s, ending, requestID, decode)
  {
    var rest, event, dataLines := s, "", [];
    notes := [];
    ghost var seen: seq<string> := [];
    while true
      invariant Lines(s) == seen + Lines(rest)
      invariant event == NameOf(Tail(seen)) && dataLines == DataOf(Tail(seen))
      invariant Unanswered(seen, requestID, decode, notes)
      decreases |rest|
    {
      var read, more := ReadLine(rest);
      Associative(seen, if read.Some? then [read.value] else [], Lines(more));
      if read.None? {
        r, notes := Finish(s, ending, event, dataLines, requestID, decode, notes);
        return;
      }
      var line := read.value;
      rest := more;
      NextLine(seen, line);
      if line == "" {
        var found;
        found, notes := EndEvent(s, rest, ending, event, dataLines, requestID, decode, notes, seen);
        if found.Some? {
          return found.value, notes;
        }
        event, dataLines := "", [];
      } else {
        event, dataLines := ReadField(event, dataLines, line, Tail(seen));
      }
      seen := seen + [line];
    }
  }

  // ---------- the long-lived stream ----------

  /** What handleSSEEvent does with an event. */
  datatype Handled = Ignored | AnnouncedEndpoint(url: string) | Dispatched(body: string)

  function Handle(e: Event): Handled {
    if IsBlank(e.data) then Ignored
    else if IsEndpoint(e) then AnnouncedEndpoint(TrimSpace(e.data))
    else Dispatched(e.data)
  }

  function EventsOf(blocks: seq<seq<string>>): seq<Event> {
    seq(|blocks|, i requires 0 <= i < |blocks| => EventOf(blocks[i]))
  }

  lemma EventsNext(blocks: seq<seq<string>>, block: seq<string>)
    ensures EventsOf(blocks + [block]) == EventsOf(blocks) + [EventOf(block)]
  {}

  /** readLoopSSE up to the error that ends it: the events it hands on, in order. */
  method ReadLoopSSE(s: string) returns (events: seq<Event>)
    ensures events == EventsOf(Blocks(Lines(s)))
  {
    var rest, event, dataLines := s, "", [];
    events := [];
    ghost var seen: seq<string> := [];
    while true
      invariant Lines(s) == seen + Lines(rest)
      invariant event == NameOf(Tail(seen)) && dataLines == DataOf(Tail(seen))
      invariant events == EventsOf(Blocks(seen))
      decreases |rest|
    {
      var read, more := ReadLine(rest);
      Associative(seen, if read.Some? then [read.value] else [], Lines(more));
      if read.None? {
        return;
      }
      var line := read.value;
      rest := more;
      NextLine(seen, line);
      if line == "" {
        EventsNext(Blocks(seen), Tail(seen));
        events := events + [Event(event, Join(dataLines, '\n'))];
        event, dataLines := "", [];
      } else {
        event, dataLines := ReadField(event, dataLines, line, Tail(seen));
      }
      seen := seen + [line];
    }
  }

  /** The events that carry data. */
  function WithData(events: seq<Event>): seq<Event> {
    if events == [] then [] else
      var last := events[|events| - 1];
      WithData(events[..|events| - 1]) + if IsBlank(last.data) then [] else [last]
  }

  /** The two readers see the same events with data if and only if no data is left after the last blank
      line of the stream. */
  lemma SameSegmentation(s: string)
    ensures WithData(EventsOf(Considered(Lines(s), EOF))) == WithData(EventsOf(Blocks(Lines(s))))
      <==> IsBlank(EventOf(Tail(Lines(s))).data)
  {
    var events, last := EventsOf(Blocks(Lines(s))), EventOf(Tail(Lines(s)));
    var all := EventsOf(Considered(Lines(s), EOF));
    assert all == events + [last];
    assert all[..|all| - 1] == events;
  }

  /** Whatever answers or notifies in a response stream is dispatched on the long-lived one, and whatever
      one reader takes for no message the other does too. */
  lemma SameMessages(e: Event, requestID: string, decode: string -> Option<RpcMessage>)
    ensures Judge(e, requestID, decode) != Skip ==> Handle(e) == Dispatched(e.data)
    ensures !Handle(e).Dispatched? ==> Judge(e, requestID, decode) == Skip
  {}
}
