/** Content-Length framing over a child process's pipes (internal/mcp/client.go, writeStdioMessage,
    readFrame, readLoopStdio; Language Server Protocol 3.17, "Base Protocol", "Header Part"). */
module McpFraming {
  import opened Text

  datatype ReadError = EndOfInput | InvalidLength | MissingLength | ShortBody
  datatype FrameResult = Body(body: string) | Err(error: ReadError)

  // ---------- the printer ----------

  function LengthName(): string { "Content-Length" }

  function Frame(body: string): string {
    LengthName() + ": " + Itoa(|body|) + "\r\n\r\n" + body
  }

  function FrameList(bodies: seq<string>): seq<string> {
    seq(|bodies|, i requires 0 <= i < |bodies| => Frame(bodies[i]))
  }

  function Frames(bodies: seq<string>): string {
    Concat(FrameList(bodies))
  }

  // ---------- the parser ----------

  /** The Content-Length value of a header line, if it is one. */
  function LengthField(line: string): Option<string> {
    var i := IndexOf(line, ':');
    if i < |line| && EqualFold(TrimSpace(line[..i]), LengthName()) then Some(TrimSpace(line[i + 1..])) else None
  }

  /** The content length after a header line; None for a value that is no number. */
  function LengthAfter(line: string, contentLength: int): Option<int> {
    match LengthField(line)
    case None => Some(contentLength)
    case Some(value) => Atoi(value)
  }

  datatype HeaderResult = Header(length: int, rest: string) | BadHeader(error: ReadError, rest: string)

  /** Header lines up to a blank one; the last Content-Length counts. */
  function ParseHeader(s: string, contentLength: int): (r: HeaderResult)
    ensures r.Header? ==> |r.rest| < |s|
    decreases |s|
  {
    var i := IndexOf(s, '\n');
    if i == |s| then BadHeader(EndOfInput, "")
    else
      var line, rest := TrimRight(s[..i + 1], LINE_END), s[i + 1..];
      if line == "" then Header(contentLength, rest)
      else
        match LengthAfter(line, contentLength)
        case None => BadHeader(InvalidLength, rest)
        case Some(n) => ParseHeader(rest, n)
  }

  function ParseFrame(s: string): (r: (FrameResult, string))
    ensures r.0.Body? ==> |r.1| < |s|
  {
    match ParseHeader(s, -1)
    case BadHeader(e, rest) => (Err(e), rest)
    case Header(n, rest) =>
      if n < 0 then (Err(MissingLength), rest)
      else if n <= |rest| then (Body(rest[..n]), rest[n..])
      else (Err(if rest == "" then EndOfInput else ShortBody), "")
  }

  /** The bodies read before the first error, and the error. */
  function ReadAll(s: string): (seq<string>, ReadError)
    decreases |s|
  {
    var (r, rest) := ParseFrame(s);
    match r
    case Err(e) => ([], e)
    case Body(body) =>
      var (bodies, e) := ReadAll(rest);
      ([body] + bodies, e)
  }

  // ---------- reading back what was written ----------

  /** Facts about the header name, kept apart so that it stays a name elsewhere. */
  predicate IsName(name: string) {
    && name != "" && Without(name, '\n') && Without(name, ':')
    && (forall i | 0 <= i < |name| :: name[i] !in WHITE && name[i] !in LINE_END)
    && EqualFold(name, LengthName())
  }

  lemma LengthNameIsName()
    ensures IsName(LengthName())
  {}

  lemma TrimAfterSpace(x: string)
    requires x != "" && x[0] !in WHITE && x[|x| - 1] !in WHITE
    ensures TrimSpace(" " + x) == x
  {
    assert (" " + x)[1..] == x && TrimLeft(x, WHITE) == x;
    TrimRightFixed(" " + x, WHITE);
    assert ' ' in WHITE && (" " + x)[0] == ' ';
  }

  function HeaderLine(name: string, n: nat): string {
    name + [':'] + (" " + Itoa(n))
  }

  lemma HeaderLineField(name: string, n: nat)
    requires IsName(name)
    ensures LengthField(HeaderLine(name, n)) == Some(Itoa(n))
  {
    IndexOfCut(name, ':', " " + Itoa(n));
    TrimFixed(name, WHITE);
    TrimAfterSpace(Itoa(n));
  }

  lemma HeaderLineEnds(name: string, n: nat)
    requires IsName(name)
    ensures Without(HeaderLine(name, n), '\n')
    ensures TrimRight(HeaderLine(name, n) + "\r\n", LINE_END) == HeaderLine(name, n) != ""
  {
    TrimLineEnd(HeaderLine(name, n));
  }

  lemma TrimLineEnd(line: string)
    requires line != "" && line[|line| - 1] !in LINE_END
    ensures TrimRight(line + "\r\n", LINE_END) == line
  {
    var s, t := line + "\r\n", line + "\r";
    assert s[..|s| - 1] == t && t[..|t| - 1] == line;
    TrimRightFixed(line, LINE_END);
    assert TrimRight(t, LINE_END) == line;
  }

  lemma ParseLine(raw: string, line: string, n: int, s: string, contentLength: int)
    requires Without(raw, '\n') && TrimRight(raw + ['\n'], LINE_END) == line != ""
    requires LengthField(line).Some? && Atoi(LengthField(line).value) == Some(n)
    ensures ParseHeader(raw + ['\n'] + s, contentLength) == ParseHeader(s, n)
  {
    var text := raw + ['\n'] + s;
    IndexOfCut(raw, '\n', s);
    assert text[..|raw| + 1] == raw + ['\n'];
  }

  lemma ParseHeaderLine(name: string, n: nat, s: string, contentLength: int)
    requires IsName(name) && n <= MAX_INT
    ensures ParseHeader(HeaderLine(name, n) + "\r\n" + s, contentLength) == ParseHeader(s, n)
  {
    var line := HeaderLine(name, n);
    HeaderLineEnds(name, n);
    HeaderLineField(name, n);
    AtoiItoa(n);
    assert line + "\r\n" == (line + "\r") + ['\n'];
    ParseLine(line + "\r", line, n, s, contentLength);
  }

  lemma ParseBlankLine(s: string, n: int)
    ensures ParseHeader("\r\n" + s, n) == Header(n, s)
  {
    var text := "\r\n" + s;
    assert text == "\r" + ['\n'] + s;
    IndexOfCut("\r", '\n', s);
    assert text[..2] == "\r\n";
    assert TrimRight("\r\n", LINE_END) == "" by {
      assert "\r\n"[..1] == "\r" && "\r"[..0] == "";
    }
  }

  lemma FrameShape(body: string, rest: string)
    ensures Frame(body) + rest == HeaderLine(LengthName(), |body|) + "\r\n" + ("\r\n" + (body + rest))
  {}

  /** Whatever bytes a body holds, reading its frame gives it back and stops right behind it. */
  lemma ParseFrameOf(body: string, rest: string)
    requires |body| <= MAX_INT
    ensures ParseFrame(Frame(body) + rest) == (Body(body), rest)
  {
    LengthNameIsName();
    FrameShape(body, rest);
    ParseHeaderLine(LengthName(), |body|, "\r\n" + (body + rest), -1);
    ParseBlankLine(body + rest, |body|);
  }

  // ---------- a stream that ends early ----------

  lemma NoNewlineNoFrame(s: string)
    requires Without(s, '\n')
    ensures ParseFrame(s) == (Err(EndOfInput), "")
  {}

  /** Where a frame can be cut: in its header line, behind it, or in the body. */
  lemma CutFrame(line: string, body: string, k: nat)
    requires k < |line| + 4 + |body|
    ensures var cut := (line + "\r\n" + ("\r\n" + body))[..k];
      cut == if k < |line| + 2 then (line + "\r")[..k]
             else if k < |line| + 4 then line + "\r\n" + "\r"[..k - |line| - 2]
             else line + "\r\n" + ("\r\n" + body[..k - |line| - 4])
  {}

  lemma NoNewlineCut(line: string, k: nat)
    requires Without(line, '\n') && k <= |line|
    ensures ParseFrame(line[..k]).0 == Err(EndOfInput)
  {
    assert Without(line[..k], '\n');
    NoNewlineNoFrame(line[..k]);
  }

  /** A frame cut short anywhere gives an error, never a body: the end of input up to the end of its header,
      a short body behind that. */
  lemma TruncatedFrame(body: string, k: nat)
    requires |body| <= MAX_INT && k < |Frame(body)|
    ensures ParseFrame(Frame(body)[..k]).0 == Err(if k + |body| <= |Frame(body)| then EndOfInput else ShortBody)
  {
    LengthNameIsName();
    var line := HeaderLine(LengthName(), |body|);
    FrameShape(body, "");
    assert Frame(body) + "" == Frame(body) && body + "" == body;
    HeaderLineEnds(LengthName(), |body|);
    CutFrame(line, body, k);
    if k < |line| + 2 {
      NoNewlineCut(line + "\r", k);
    } else if k < |line| + 4 {
      ParseHeaderLine(LengthName(), |body|, "\r"[..k - |line| - 2], -1);
    } else {
      var tail := body[..k - |line| - 4];
      ParseHeaderLine(LengthName(), |body|, "\r\n" + tail, -1);
      ParseBlankLine(tail, |body|);
    }
  }

  // ---------- whole streams ----------

  /** A frame gives its body and no more, whatever follows, and nothing if it is cut short. */
  ghost predicate Delivers(frame: string, body: string) {
    && (forall rest :: ParseFrame(frame + rest) == (Body(body), rest))
    && (forall k | 0 <= k < |frame| :: ParseFrame(frame[..k]).0.Err?)
  }

  lemma FramesDeliver(bodies: seq<string>)
    requires forall i | 0 <= i < |bodies| :: |bodies[i]| <= MAX_INT
    ensures forall i | 0 <= i < |bodies| :: Delivers(FrameList(bodies)[i], bodies[i])
  {
    forall i | 0 <= i < |bodies| ensures Delivers(FrameList(bodies)[i], bodies[i]) {
      forall rest ensures ParseFrame(Frame(bodies[i]) + rest) == (Body(bodies[i]), rest) {
        ParseFrameOf(bodies[i], rest);
      }
      forall k | 0 <= k < |Frame(bodies[i])| ensures ParseFrame(Frame(bodies[i])[..k]).0.Err? {
        TruncatedFrame(bodies[i], k);
      }
    }
  }

  lemma ReadAllNext(s: string, body: string, rest: string)
    requires ParseFrame(s) == (Body(body), rest)
    ensures ReadAll(s).0 == [body] + ReadAll(rest).0 && ReadAll(s).1 == ReadAll(rest).1
  {}

  lemma {:induction false} ReadAllDelivered(frames: seq<string>, bodies: seq<string>)
    requires |frames| == |bodies| && forall i | 0 <= i < |bodies| :: Delivers(frames[i], bodies[i])
    ensures ReadAll(Concat(frames)).0 == bodies && ReadAll(Concat(frames)).1 == EndOfInput
  {
    if bodies == [] {
      assert ParseFrame("") == (Err(EndOfInput), "");
    } else {
      assert Delivers(frames[0], bodies[0]);
      ReadAllNext(Concat(frames), bodies[0], Concat(frames[1..]));
      ReadAllDelivered(frames[1..], bodies[1..]);
    }
  }

  /** Reading a concatenation of frames gives exactly the bodies, in order, and then the end of input. */
  lemma ReadAllFrames(bodies: seq<string>)
    requires forall i | 0 <= i < |bodies| :: |bodies[i]| <= MAX_INT
    ensures ReadAll(Frames(bodies)) == (bodies, EndOfInput)
  {
    FramesDeliver(bodies);
    ReadAllDelivered(FrameList(bodies), bodies);
  }

  lemma TruncatedStep(first: string, body: string, rest: string, k: nat)
    requires Delivers(first, body) && k < |first + rest|
    ensures ReadAll((first + rest)[..k]).0
      == if k < |first| then [] else [body] + ReadAll(rest[..k - |first|]).0
  {
    var cut := (first + rest)[..k];
    if k < |first| {
      assert cut == first[..k];
    } else {
      var cut' := rest[..k - |first|];
      assert cut == first + cut';
      ReadAllNext(cut, body, cut');
    }
  }

  lemma {:induction false} TruncatedDelivered(frames: seq<string>, bodies: seq<string>, k: nat)
    requires |frames| == |bodies| && forall i | 0 <= i < |bodies| :: Delivers(frames[i], bodies[i])
    requires k < |Concat(frames)|
    ensures ReadAll(Concat(frames)[..k]).0 < bodies
  {
    TruncatedStep(frames[0], bodies[0], Concat(frames[1..]), k);
    if k >= |frames[0]| {
      TruncatedDelivered(frames[1..], bodies[1..], k - |frames[0]|);
    }
  }

  /** If the stream ends early, what is read is a proper prefix of what was written. */
  lemma TruncatedStream(bodies: seq<string>, k: nat)
    requires forall i | 0 <= i < |bodies| :: |bodies[i]| <= MAX_INT
    requires k < |Frames(bodies)|
    ensures ReadAll(Frames(bodies)[..k]).0 < bodies
  {
    FramesDeliver(bodies);
    TruncatedDelivered(FrameList(bodies), bodies, k);
  }

  // ---------- the pipes ----------

  lemma {:induction false} ConcatAppend(parts: seq<string>, part: string)
    ensures Concat(parts + [part]) == Concat(parts) + part
  {
    if parts == [] {
      assert [part][1..] == [];
    } else {
      ConcatAppend(parts[1..], part);
      assert (parts + [part])[1..] == parts[1..] + [part];
    }
  }

  lemma FramesAppend(bodies: seq<string>, body: string)
    ensures Frames(bodies + [body]) == Frames(bodies) + Frame(body)
  {
    assert FrameList(bodies + [body]) == FrameList(bodies) + [Frame(body)];
    ConcatAppend(FrameList(bodies), Frame(body));
  }

  /** The writing end: the bytes written so far are the frames of the messages sent so far. */
  class StdioWriter {
    var written: string
    ghost var sent: seq<string>

    ghost predicate Valid()
      reads this
    {
      written == Frames(sent)
    }

    constructor ()
      ensures Valid() && sent == []
    {
      written, sent := "", [];
    }

    method WriteStdioMessage(body: string)
      requires Valid()
      modifies this
      ensures Valid() && sent == old(sent) + [body]
    {
      FramesAppend(sent, body);
      var frame := LengthName() + ": " + Itoa(|body|) + "\r\n\r\n";
      frame := frame + body;
      written := written + frame;
      sent := sent + [body];
    }
  }

  /** The reading end: a buffered reader over the bytes still to come. */
  class StdioReader {
    var rest: string

    constructor (input: string)
      ensures rest == input
    {
      rest := input;
    }

    /** bufio.Reader.ReadString('\n'); at the end of input it consumes what is left. */
    method ReadLine() returns (line: Option<string>)
      modifies this
      ensures var s := old(rest);
        var i := IndexOf(s, '\n');
        if i < |s| then line == Some(s[..i + 1]) && rest == s[i + 1..] else line == None && rest == ""
    {
      var i := IndexOf(rest, '\n');
      if i < |rest| {
        line := Some(rest[..i + 1]);
        rest := rest[i + 1..];
      } else {
        line, rest := None, "";
      }
    }

    /** One header line of readFrame: the header is complete or broken, or it goes on. */
    method ReadHeaderLine(contentLength: int) returns (done: Option<HeaderResult>, length: int)
      modifies this
      ensures match done
        case Some(r) => ParseHeader(old(rest), contentLength) == r && r.rest == rest
        case None => ParseHeader(old(rest), contentLength) == ParseHeader(rest, length) && |rest| < |old(rest)|
    {
      length := contentLength;
      var read := ReadLine();
      if read.None? {
        return Some(BadHeader(EndOfInput, rest)), length;
      }
      var line := TrimRight(read.value, LINE_END);
      if line == "" {
        return Some(Header(contentLength, rest)), length;
      }
      var n := LengthAfter(line, contentLength);
      if n.None? {
        return Some(BadHeader(InvalidLength, rest)), length;
      }
      done, length := None, n.value;
    }

    /** readFrame up to the blank line */
    method ReadHeader() returns (r: HeaderResult)
      modifies this
      ensures r == ParseHeader(old(rest), -1) && r.rest == rest
    {
      var contentLength := -1;
      while true
        invariant ParseHeader(rest, contentLength) == ParseHeader(old(rest), -1)
        decreases |rest|
      {
        var done;
        done, contentLength := ReadHeaderLine(contentLength);
        if done.Some? {
          return done.value;
        }
      }
    }

    method ReadFrame() returns (r: FrameResult)
      modifies this
      ensures (r, rest) == ParseFrame(old(rest))
    {
      var h := ReadHeader();
      if h.BadHeader? {
        return Err(h.error);
      }
      if h.length < 0 {
        return Err(MissingLength);
      }
      if |rest| < h.length {
        r := Err(if rest == "" then EndOfInput else ShortBody);
        rest := "";
        return;
      }
      r := Body(rest[..h.length]);
      rest := rest[h.length..];
    }

    /** readLoopStdio: every body is dispatched, until the first error. */
    method ReadLoop() returns (bodies: seq<string>, error: ReadError)
      modifies this
      ensures bodies == ReadAll(old(rest)).0 && error == ReadAll(old(rest)).1
    {
      bodies := [];
      while true
        invariant ReadAll(old(rest)).0 == bodies + ReadAll(rest).0
        invariant ReadAll(old(rest)).1 == ReadAll(rest).1
        decreases |rest|
      {
        ghost var before := rest;
        var r := ReadFrame();
        if r.Err? {
          assert ReadAll(before).0 == [];
          return bodies, r.error;
        }
        ReadAllNext(before, r.body, rest);
        bodies := bodies + [r.body];
      }
    }
  }
}
