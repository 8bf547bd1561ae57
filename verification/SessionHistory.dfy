/** Paging through a session's transcript (internal/sessions/manager.go, HistoryPageFiltered). */
module SessionHistory {
  import opened Text
  import opened SessionManager

  /** Times are integers; None is Go's zero time, a bound that is not set. */
  datatype Filter = Filter(limit: int, role: string, from: Option<int>, to: Option<int>,
                           before: Option<int>, after: Option<int>, cursor: string)

  datatype Page<T> = Page(messages: seq<T>, nextCursor: string, prevCursor: string, total: nat)

  predicate Matches(rec: MessageRecord, f: Filter) {
    && (f.role == "" || rec.role == f.role)
    && (f.from.None? || rec.at >= f.from.value)
    && (f.to.None? || rec.at <= f.to.value)
    && (f.before.None? || rec.at < f.before.value)
    && (f.after.None? || rec.at > f.after.value)
  }

  /** The readable, normalised and matching records of a transcript, in order. */
  function Filtered(lines: seq<Line>, e: Entry, f: Filter): seq<MessageRecord> {
    Collect(lines, line => FilteredLine(line, e, f))
  }

  function Collect<S, T>(xs: seq<S>, g: S -> seq<T>): seq<T> {
    if xs == [] then [] else Collect(xs[..|xs| - 1], g) + g(xs[|xs| - 1])
  }

  function FilteredLine(line: Line, e: Entry, f: Filter): seq<MessageRecord> {
    if line.Unreadable? then [] else
      var rec := NormalizeRecord(line.rec, e);
      if Matches(rec, f) then [rec] else []
  }

  function Limit(f: Filter): (limit: nat)
    ensures limit > 0
  {
    if f.limit <= 0 then 50 else f.limit
  }

  /** Where a page starts: at the cursor, at 0 for an unreadable one, and near the end for none. */
  function Start(cursor: string, limit: nat, total: nat): (start: nat)
    ensures start <= total
  {
    var wanted := if IsBlank(cursor) then (if total > limit then total - limit else 0)
                  else match Atoi(TrimSpace(cursor)) { case Some(n) => n case None => 0 };
    if wanted < 0 then 0 else if wanted > total then total else wanted
  }

  function End(start: nat, limit: nat, total: nat): nat {
    if start + limit > total then total else start + limit
  }

  function PageAt<T>(records: seq<T>, limit: nat, start: nat): Page<T>
    requires start <= |records|
  {
    var end := End(start, limit, |records|);
    Page(records[start..end],
         if end < |records| then Itoa(end) else "",
         if start > 0 then Itoa(if start < limit then 0 else start - limit) else "",
         |records|)
  }

  function PageOf<T>(records: seq<T>, limit: nat, cursor: string): Page<T> {
    PageAt(records, limit, Start(cursor, limit, |records|))
  }

  /** The page HistoryPageFiltered answers with: an error for an unknown session, and an empty page
      when there is no transcript. */
  function HistoryPage(s: State, key: string, f: Filter): Option<Page<MessageRecord>> {
    if key !in s.store then None else
      var e := s.store[key];
      if e.sessionID !in s.transcripts then Some(Page([], "", "", 0))
      else Some(PageOf(Filtered(s.transcripts[e.sessionID], e, f), Limit(f), f.cursor))
  }

  method HistoryPageFiltered(m: Manager, key: string, f: Filter) returns (page: Option<Page<MessageRecord>>)
    ensures page == HistoryPage(m.Snapshot(), key, f)
  {
    var found := m.store.Get(key);
    if found.None? {
      return None;
    }
    var e := found.value;
    if e.sessionID !in m.transcripts {
      return Some(Page([], "", "", 0));
    }
    var lines, out := m.transcripts[e.sessionID], [];
    for i := 0 to |lines|
      invariant out == Filtered(lines[..i], e, f)
    {
      CollectNext(lines[..i], lines[i], line => FilteredLine(line, e, f));
      assert lines[..i] + [lines[i]] == lines[..i + 1];
      if lines[i].Unreadable? {
        continue;
      }
      var rec := NormalizeRecord(lines[i].rec, e);
      if f.role != "" && rec.role != f.role { continue; }
      if f.from.Some? && rec.at < f.from.value { continue; }
      if f.to.Some? && rec.at > f.to.value { continue; }
      if f.before.Some? && !(rec.at < f.before.value) { continue; }
      if f.after.Some? && !(rec.at > f.after.value) { continue; }
      out := out + [rec];
    }
    assert lines[..|lines|] == lines;
    var answer := Paged(out, f);
    page := Some(answer);
  }

  /** The cursor arithmetic over the filtered records. */
  method Paged<T>(out: seq<T>, f: Filter) returns (page: Page<T>)
    ensures page == PageOf(out, Limit(f), f.cursor)
  {
    var total := |out|;
    var limit := f.limit;
    if limit <= 0 {
      limit := 50;
    }
    var start: int := 0;
    var cursor := TrimSpace(f.cursor);
    BlankTrims(f.cursor);
    if cursor != "" {
      var parsed := Atoi(cursor);
      if parsed.Some? {
        start := parsed.value;
      }
    } else if total > limit {
      start := total - limit;
    }
    if start < 0 {
      start := 0;
    }
    if start > total {
      start := total;
    }
    var end := start + limit;
    if end > total {
      end := total;
    }
    page := Page(out[start..end], "", "", total);
    if end < total {
      page := page.(nextCursor := Itoa(end));
    }
    if start > 0 {
      var prevStart := start - limit;
      if prevStart < 0 {
        prevStart := 0;
      }
      page := page.(prevCursor := Itoa(prevStart));
    }
  }

  // ---------- what a page shows ----------

  /** The filter asks for the record: its role, and the bounds that are set, `before` and `after` being strict. */
  predicate Wants(f: Filter, rec: MessageRecord) {
    && (f.role != "" ==> rec.role == f.role)
    && (f.from != None ==> f.from.value <= rec.at)
    && (f.to != None ==> rec.at <= f.to.value)
    && (f.before != None ==> rec.at < f.before.value)
    && (f.after != None ==> f.after.value < rec.at)
  }

  /** The history holds the readable records that are wanted, in order, each as it is normalised. */
  lemma FilteredNext(lines: seq<Line>, line: Line, e: Entry, f: Filter)
    ensures Filtered([], e, f) == []
    ensures Filtered(lines + [line], e, f)
      == if line.Record? && Wants(f, NormalizeRecord(line.rec, e)) then Filtered(lines, e, f) + [NormalizeRecord(line.rec, e)]
         else Filtered(lines, e, f)
  {
    CollectNext(lines, line, line => FilteredLine(line, e, f));
  }

  lemma {:induction false} FilteredWanted(lines: seq<Line>, e: Entry, f: Filter, i: nat)
    requires i < |Filtered(lines, e, f)|
    ensures Wants(f, Filtered(lines, e, f)[i])
  {
    if lines != [] {
      var init := lines[..|lines| - 1];
      assert lines == init + [lines[|lines| - 1]];
      FilteredNext(init, lines[|lines| - 1], e, f);
      if i < |Filtered(init, e, f)| {
        FilteredWanted(init, e, f, i);
      }
    }
  }

  /** Every record on a page is wanted; a page holds at most the limit, 50 when none is given, and the default
      page the newest ones. */
  lemma PageShowsWanted(s: State, key: string, f: Filter)
    requires HistoryPage(s, key, f).Some?
    ensures var page, limit := HistoryPage(s, key, f).value, if f.limit <= 0 then 50 else f.limit;
      && (forall i | 0 <= i < |page.messages| :: Wants(f, page.messages[i]))
      && |page.messages| <= limit
      && page.total == |Filtered(Transcript(s, s.store[key].sessionID), s.store[key], f)|
      && (IsBlank(f.cursor) ==> |page.messages| == if page.total < limit then page.total else limit)
      && (IsBlank(f.cursor) ==> page.nextCursor == "")
  {
    var e := s.store[key];
    if e.sessionID in s.transcripts {
      var records := Filtered(s.transcripts[e.sessionID], e, f);
      forall i | 0 <= i < |records| ensures Wants(f, records[i]) {
        FilteredWanted(s.transcripts[e.sessionID], e, f, i);
      }
    }
  }

  /** A cursor that is no number, or a negative one, starts at the oldest record; one beyond the end shows
      nothing and leads back by one limit. */
  lemma StrangeCursors(cursor: string, limit: nat, total: nat)
    requires !IsBlank(cursor)
    ensures Atoi(TrimSpace(cursor)) == None ==> Start(cursor, limit, total) == 0
    ensures Atoi(TrimSpace(cursor)).Some? && Atoi(TrimSpace(cursor)).value < 0 ==> Start(cursor, limit, total) == 0
    ensures Atoi(TrimSpace(cursor)).Some? && Atoi(TrimSpace(cursor)).value > total ==> Start(cursor, limit, total) == total
  {}

  // ---------- walks ----------

  lemma StartAtCursor(n: nat, limit: nat, total: nat)
    requires n <= total <= MAX_INT
    ensures Start(Itoa(n), limit, total) == n
  {
    ItoaNotBlank(n);
    BlankTrims(Itoa(n));
    AtoiItoa(n);
  }

  function Back(end: nat, limit: nat): nat {
    if end < limit then 0 else end - limit
  }

  /** Where the pages met by following NextCursor start. */
  function NextWalk<T>(records: seq<T>, limit: nat, start: nat): seq<nat>
    requires limit > 0 && start <= |records| <= MAX_INT
    decreases |records| - start
  {
    var cursor := PageAt(records, limit, start).nextCursor;
    if cursor == "" then [start]
    else
      StartAtCursor(End(start, limit, |records|), limit, |records|);
      [start] + NextWalk(records, limit, Start(cursor, limit, |records|))
  }

  /** Where the pages met by following PrevCursor start. */
  function PrevWalk<T>(records: seq<T>, limit: nat, start: nat): seq<nat>
    requires limit > 0 && start <= |records| <= MAX_INT
    decreases start
  {
    var cursor := PageAt(records, limit, start).prevCursor;
    if cursor == "" then [start]
    else
      StartAtCursor(Back(start, limit), limit, |records|);
      [start] + PrevWalk(records, limit, Start(cursor, limit, |records|))
  }

  /** Strides of one limit, forwards and backwards: the walks without their cursors. */
  function Forwards(limit: nat, total: nat, start: nat): seq<nat>
    requires limit > 0
    decreases total - start
  {
    [start] + if End(start, limit, total) < total then Forwards(limit, total, End(start, limit, total)) else []
  }

  function Backwards(limit: nat, start: nat): seq<nat>
    requires limit > 0
  {
    [start] + if start > 0 then Backwards(limit, Back(start, limit)) else []
  }

  lemma {:induction false} NextWalkStrides<T>(records: seq<T>, limit: nat, start: nat)
    requires limit > 0 && start <= |records| <= MAX_INT
    ensures NextWalk(records, limit, start) == Forwards(limit, |records|, start)
    decreases |records| - start
  {
    var end := End(start, limit, |records|);
    if end < |records| {
      StartAtCursor(end, limit, |records|);
      NextWalkStrides(records, limit, end);
    }
  }

  lemma {:induction false} PrevWalkStrides<T>(records: seq<T>, limit: nat, start: nat)
    requires limit > 0 && start <= |records| <= MAX_INT
    ensures PrevWalk(records, limit, start) == Backwards(limit, start)
    decreases start
  {
    if start > 0 {
      StartAtCursor(Back(start, limit), limit, |records|);
      PrevWalkStrides(records, limit, Back(start, limit));
    }
  }

  /** What the pages starting there show, one after the other. */
  function Shown<T>(records: seq<T>, limit: nat, starts: seq<nat>): seq<T>
    requires forall i | 0 <= i < |starts| :: starts[i] <= |records|
  {
    if starts == [] then [] else PageAt(records, limit, starts[0]).messages + Shown(records, limit, starts[1..])
  }

  lemma {:induction false} ForwardsShowAll<T>(records: seq<T>, limit: nat, start: nat)
    requires limit > 0 && start <= |records|
    ensures var starts := Forwards(limit, |records|, start);
      (forall i | 0 <= i < |starts| :: starts[i] <= |records|) && Shown(records, limit, starts) == records[start..]
    decreases |records| - start
  {
    var end := End(start, limit, |records|);
    var rest := if end < |records| then Forwards(limit, |records|, end) else [];
    assert ([start] + rest)[1..] == rest;
    if end < |records| {
      ForwardsShowAll(records, limit, end);
      assert records[start..end] + records[end..] == records[start..];
    }
  }

  /** Following NextCursor from cursor 0 ends, and shows exactly the filtered history. */
  lemma NextWalkShowsAll<T>(records: seq<T>, limit: nat)
    requires limit > 0 && |records| <= MAX_INT
    ensures var walk := NextWalk(records, limit, Start("0", limit, |records|));
      (forall i | 0 <= i < |walk| :: walk[i] <= |records|) && Shown(records, limit, walk) == records
  {
    assert Itoa(0) == "0";
    StartAtCursor(0, limit, |records|);
    NextWalkStrides(records, limit, 0);
    ForwardsShowAll(records, limit, 0);
  }

  /** A walk backwards from a page ending at `end`: each page is full and ends where the one before it
      starts; only the last, clamped to the beginning, may reach into the one before it. */
  ghost predicate StepsBack<T>(walk: seq<nat>, records: seq<T>, limit: nat, end: nat)
    requires end <= |records|
  {
    && walk != [] && walk[0] <= |records|
    && var shown := PageAt(records, limit, walk[0]).messages;
       if |walk| == 1 then end <= limit && shown == records[..End(0, limit, |records|)]
       else limit < end && shown == records[end - limit..end] && StepsBack(walk[1..], records, limit, end - limit)
  }

  lemma {:induction false} BackwardsStepBack<T>(records: seq<T>, limit: nat, end: nat)
    requires limit > 0 && end <= |records|
    ensures StepsBack(Backwards(limit, Back(end, limit)), records, limit, end)
  {
    var start := Back(end, limit);
    if start > 0 {
      BackwardsStepBack(records, limit, start);
      var rest := Backwards(limit, Back(start, limit));
      assert ([start] + rest)[1..] == rest;
    }
  }

  /** Every record before `end` is on a page of the walk. */
  lemma {:induction false} StepsBackCovers<T>(walk: seq<nat>, records: seq<T>, limit: nat, end: nat, k: nat) returns (i: nat)
    requires k < end <= |records| && StepsBack(walk, records, limit, end)
    ensures i < |walk| && walk[i] <= |records| && records[k] in PageAt(records, limit, walk[i]).messages
  {
    var shown := PageAt(records, limit, walk[0]).messages;
    if |walk| == 1 {
      i := 0;
      assert shown[k] == records[k];
    } else if k >= end - limit {
      i := 0;
      assert shown[k - (end - limit)] == records[k];
    } else {
      i := StepsBackCovers(walk[1..], records, limit, end - limit, k);
      i := i + 1;
    }
  }

  /** Following PrevCursor from the default page ends at the oldest record, having shown every record,
      and none twice but on the last page. */
  lemma PrevWalkCovers<T>(records: seq<T>, limit: nat, cursor: string)
    requires limit > 0 && |records| <= MAX_INT && IsBlank(cursor)
    ensures var walk := PrevWalk(records, limit, Start(cursor, limit, |records|));
      && StepsBack(walk, records, limit, |records|)
      && forall k | 0 <= k < |records| ::
           exists i | 0 <= i < |walk| && walk[i] <= |records| :: records[k] in PageAt(records, limit, walk[i]).messages
  {
    PrevWalkStrides(records, limit, Back(|records|, limit));
    BackwardsStepBack(records, limit, |records|);
    var walk := Backwards(limit, Back(|records|, limit));
    forall k | 0 <= k < |records|
      ensures exists i | 0 <= i < |walk| && walk[i] <= |records| :: records[k] in PageAt(records, limit, walk[i]).messages
    {
      var i := StepsBackCovers(walk, records, limit, |records|, k);
    }
  }

  // ---------- appends between pages ----------

  lemma CollectNext<S, T>(xs: seq<S>, x: S, g: S -> seq<T>)
    ensures Collect(xs + [x], g) == Collect(xs, g) + g(x)
  {
    assert (xs + [x])[..|xs|] == xs;
  }

  lemma {:induction false} CollectExtends<S, T>(xs: seq<S>, more: seq<S>, g: S -> seq<T>)
    ensures Collect(xs + more, g) == Collect(xs, g) + Collect(more, g)
  {
    if more == [] {
      assert xs + more == xs;
    } else {
      var init, last := more[..|more| - 1], more[|more| - 1];
      CollectExtends(xs, init, g);
      assert more == init + [last];
      Associative(xs, init, [last]);
      CollectNext(xs + init, last, g);
      CollectNext(init, last, g);
      Associative(Collect(xs, g), Collect(init, g), g(last));
    }
  }

  lemma PageExtends<T>(records: seq<T>, added: seq<T>, limit: nat, cursor: string)
    requires !IsBlank(cursor)
    ensures var page, later := PageOf(records, limit, cursor), PageOf(records + added, limit, cursor);
      && page.messages <= later.messages
      && (page.messages != [] ==> page.prevCursor == later.prevCursor)
      && (page.nextCursor != "" ==> page.messages == later.messages && page.nextCursor == later.nextCursor)
  {
    var start := Start(cursor, limit, |records|);
    if start < |records| {
      assert Start(cursor, limit, |records + added|) == start;
      var end := End(start, limit, |records|);
      assert (records + added)[start..end] == records[start..end];
    }
  }

  /** Records written between two requests never change what an earlier cursor page showed: a full
      page stays as it is, and the last one is only extended at its end. */
  lemma AppendsKeepPages(lines: seq<Line>, more: seq<Line>, e: Entry, f: Filter)
    requires !IsBlank(f.cursor)
    ensures var page := PageOf(Filtered(lines, e, f), Limit(f), f.cursor);
      var later := PageOf(Filtered(lines + more, e, f), Limit(f), f.cursor);
      && page.messages <= later.messages
      && (page.messages != [] ==> page.prevCursor == later.prevCursor)
      && (page.nextCursor != "" ==> page.messages == later.messages && page.nextCursor == later.nextCursor)
  {
    CollectExtends(lines, more, line => FilteredLine(line, e, f));
    PageExtends(Filtered(lines, e, f), Filtered(more, e, f), Limit(f), f.cursor);
  }
}
