/** Frames with any header lines, as other programs write them (internal/mcp/client.go, readFrame). */
module McpHeaders {
  import opened Text
  import opened McpFraming

  /** A line of a header: not blank, and ending where it is meant to. */
  predicate IsHeaderLine(line: string) {
    line != "" && Without(line, '\n') && line[|line| - 1] !in LINE_END
  }

  predicate AreHeaderLines(lines: seq<string>) {
    forall i | 0 <= i < |lines| :: IsHeaderLine(lines[i])
  }

  /** The line says nothing about the length: it has no colon, or another name before its first one. */
  predicate IsOther(line: string) {
    var i := IndexOf(line, ':');
    i == |line| || !EqualFold(TrimSpace(line[..i]), "Content-Length")
  }

  /** The line gives the length n. */
  predicate GivesLength(line: string, n: int) {
    var i := IndexOf(line, ':');
    i < |line| && EqualFold(TrimSpace(line[..i]), "Content-Length") && Atoi(TrimSpace(line[i + 1..])) == Some(n)
  }

  /** The line names the length and gives no number. */
  predicate GivesNoNumber(line: string) {
    var i := IndexOf(line, ':');
    i < |line| && EqualFold(TrimSpace(line[..i]), "Content-Length") && Atoi(TrimSpace(line[i + 1..])) == None
  }

  function HeaderText(lines: seq<string>): string {
    if lines == [] then "" else lines[0] + "\r\n" + HeaderText(lines[1..])
  }

  lemma CutLine(line: string, s: string)
    requires Without(line, '\n')
    ensures var text := line + "\r\n" + s;
      IndexOf(text, '\n') == |line| + 1 && text[..|line| + 2] == line + "\r\n" && text[|line| + 2..] == s
  {
    var raw := line + "\r";
    assert line + "\r\n" + s == raw + ['\n'] + s;
    IndexOfCut(raw, '\n', s);
  }

  /** One header line. */
  lemma LineParsed(line: string, s: string, contentLength: int)
    requires IsHeaderLine(line)
    ensures ParseHeader(line + "\r\n" + s, contentLength)
         == match LengthAfter(line, contentLength)
            case None => BadHeader(InvalidLength, s)
            case Some(n) => ParseHeader(s, n)
  {
    CutLine(line, s);
    TrimLineEnd(line);
  }

  lemma LineMeans(line: string, contentLength: int, n: int)
    ensures IsOther(line) ==> LengthAfter(line, contentLength) == Some(contentLength)
    ensures GivesLength(line, n) ==> LengthAfter(line, contentLength) == Some(n)
    ensures GivesNoNumber(line) ==> LengthAfter(line, contentLength) == None
  {}

  lemma HeaderNext(lines: seq<string>, s: string)
    requires lines != []
    ensures HeaderText(lines) + s == lines[0] + "\r\n" + (HeaderText(lines[1..]) + s)
  {}

  /** Other lines leave the length as it is. */
  lemma {:induction false} OthersSkipped(lines: seq<string>, s: string, contentLength: int)
    requires AreHeaderLines(lines) && forall i | 0 <= i < |lines| :: IsOther(lines[i])
    ensures ParseHeader(HeaderText(lines) + s, contentLength) == ParseHeader(s, contentLength)
  {
    if lines == [] {
      assert HeaderText(lines) + s == s;
    } else {
      HeaderNext(lines, s);
      LineParsed(lines[0], HeaderText(lines[1..]) + s, contentLength);
      LineMeans(lines[0], contentLength, 0);
      OthersSkipped(lines[1..], s, contentLength);
    }
  }

  /** Lines that are other or give some length are read over. */
  lemma {:induction false} LengthsReadOver(lines: seq<string>, lengths: seq<int>, s: string, contentLength: int) returns (n: int)
    requires AreHeaderLines(lines) && |lengths| == |lines|
    requires forall i | 0 <= i < |lines| :: IsOther(lines[i]) || GivesLength(lines[i], lengths[i])
    ensures ParseHeader(HeaderText(lines) + s, contentLength) == ParseHeader(s, n)
  {
    if lines == [] {
      n := contentLength;
      assert HeaderText(lines) + s == s;
    } else {
      HeaderNext(lines, s);
      LineParsed(lines[0], HeaderText(lines[1..]) + s, contentLength);
      LineMeans(lines[0], contentLength, lengths[0]);
      n := LengthsReadOver(lines[1..], lengths[1..], s, if IsOther(lines[0]) then contentLength else lengths[0]);
    }
  }

  lemma HeaderDone(body: string, rest: string, n: int, text: string)
    requires ParseHeader(text, -1) == ParseHeader("\r\n" + (body + rest), n) && n == |body|
    ensures ParseFrame(text) == (McpFraming.Body(body), rest)
  {
    ParseBlankLine(body + rest, n);
    assert (body + rest)[..n] == body && (body + rest)[n..] == rest;
  }

  /** Whatever other lines a header has, and in whatever case and spacing the name is written, the body has the
      length of the last line that gives one. */
  lemma LastLengthCounts(before: seq<string>, lengths: seq<int>, line: string, behind: seq<string>, body: string, rest: string)
    requires AreHeaderLines(before) && |lengths| == |before|
    requires forall i | 0 <= i < |before| :: IsOther(before[i]) || GivesLength(before[i], lengths[i])
    requires IsHeaderLine(line) && GivesLength(line, |body|)
    requires AreHeaderLines(behind) && forall i | 0 <= i < |behind| :: IsOther(behind[i])
    ensures ParseFrame(HeaderText(before) + (line + "\r\n" + (HeaderText(behind) + ("\r\n" + (body + rest)))))
         == (McpFraming.Body(body), rest)
  {
    var end := "\r\n" + (body + rest);
    var tail := line + "\r\n" + (HeaderText(behind) + end);
    var n := LengthsReadOver(before, lengths, tail, -1);
    LineParsed(line, HeaderText(behind) + end, n);
    LineMeans(line, n, |body|);
    OthersSkipped(behind, end, |body|);
    HeaderDone(body, rest, |body|, HeaderText(before) + tail);
  }

  /** A header that gives no length is an error, and reading goes on behind it. */
  lemma NoLengthIsError(lines: seq<string>, rest: string)
    requires AreHeaderLines(lines) && forall i | 0 <= i < |lines| :: IsOther(lines[i])
    ensures ParseFrame(HeaderText(lines) + ("\r\n" + rest)) == (Err(MissingLength), rest)
  {
    OthersSkipped(lines, "\r\n" + rest, -1);
    ParseBlankLine(rest, -1);
  }

  /** So is a length that is no number, wherever it stands. */
  lemma BadLengthIsError(before: seq<string>, lengths: seq<int>, line: string, rest: string)
    requires AreHeaderLines(before) && |lengths| == |before|
    requires forall i | 0 <= i < |before| :: IsOther(before[i]) || GivesLength(before[i], lengths[i])
    requires IsHeaderLine(line) && GivesNoNumber(line)
    ensures ParseFrame(HeaderText(before) + (line + "\r\n" + rest)) == (Err(InvalidLength), rest)
  {
    var n := LengthsReadOver(before, lengths, line + "\r\n" + rest, -1);
    LineParsed(line, rest, n);
    LineMeans(line, n, 0);
  }
}
