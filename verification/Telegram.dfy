/** The Telegram adapter (internal/channels/telegram.go): chunking of long texts, the window of seen
    updates, the per-user rate limit and the polling offset. A text is a sequence of runes. */
module Telegram {
  import opened Text

  // ---------- chunking ----------

  function WindowEnd(runes: string, start: nat, limit: nat): nat {
    if start + limit > |runes| then |runes| else start + limit
  }

  /** Where a window is cut: at the last newline strictly inside; without one at the last space strictly
      inside; with neither at its end. */
  ghost predicate IsCut(runes: string, start: nat, end: nat, split: nat)
    requires start < end <= |runes|
  {
    && start < split <= end
    && if split < end && runes[split] == '\n' then forall k | split < k < end :: runes[k] != '\n'
       else && (forall k | start < k < end :: runes[k] != '\n')
            && (split < end ==> runes[split] == ' ')
            && (forall k | (if split < end then split else start) < k < end :: runes[k] != ' ')
  }

  /** A window has one cut only. */
  lemma CutIsUnique(runes: string, start: nat, end: nat, split: nat, split': nat)
    requires start < end <= |runes|
    requires IsCut(runes, start, end, split) && IsCut(runes, start, end, split')
    ensures split == split'
  {}

  /** The chunks of a text from `start` on, each ending at the cut of its window. */
  ghost predicate WellCut(chunks: seq<string>, runes: string, limit: nat, start: nat)
    requires limit > 0 && start <= |runes|
    decreases |chunks|
  {
    if start == |runes| then chunks == []
    else
      && chunks != []
      && var split := start + |chunks[0]|;
         && split <= |runes| && chunks[0] == runes[start..split]
         && IsCut(runes, start, WindowEnd(runes, start, limit), split)
         && WellCut(chunks[1..], runes, limit, split)
  }

  lemma SliceNext(runes: string, start: nat, split: nat)
    requires start <= split <= |runes|
    ensures runes[start..split] + runes[split..] == runes[start..]
  {}

  /** Well cut chunks lose nothing, are not empty and fit the limit. */
  lemma {:induction false} WellCutChunks(chunks: seq<string>, runes: string, limit: nat, start: nat)
    requires limit > 0 && start <= |runes| && WellCut(chunks, runes, limit, start)
    ensures Concat(chunks) == runes[start..]
    ensures forall i | 0 <= i < |chunks| :: 1 <= |chunks[i]| <= limit
    decreases |chunks|
  {
    if start < |runes| {
      var first, rest := chunks[0], chunks[1..];
      WellCutChunks(rest, runes, limit, start + |first|);
      SliceNext(runes, start, start + |first|);
      assert chunks == [first] + rest;
    }
  }

  /** There is one way to cut a text well. */
  lemma {:induction false} WellCutUnique(chunks: seq<string>, chunks': seq<string>, runes: string, limit: nat, start: nat)
    requires limit > 0 && start <= |runes| && WellCut(chunks, runes, limit, start) && WellCut(chunks', runes, limit, start)
    ensures chunks == chunks'
    decreases |chunks|
  {
    if start < |runes| {
      var split := start + |chunks[0]|;
      CutIsUnique(runes, start, WindowEnd(runes, start, limit), split, start + |chunks'[0]|);
      WellCutUnique(chunks[1..], chunks'[1..], runes, limit, split);
    }
  }

  /** Chunks that cut the text well up to a position: any good cut of the rest completes them. */
  ghost predicate CutUpTo(chunks: seq<string>, runes: string, limit: nat, start: nat)
    requires limit > 0 && start <= |runes|
  {
    forall rest | WellCut(rest, runes, limit, start) :: WellCut(chunks + rest, runes, limit, 0)
  }

  lemma NothingCut(runes: string, limit: nat)
    requires limit > 0
    ensures CutUpTo([], runes, limit, 0)
  {
    forall rest | WellCut(rest, runes, limit, 0) ensures WellCut([] + rest, runes, limit, 0) {
      assert [] + rest == rest;
    }
  }

  lemma ChunkNext(chunks: seq<string>, runes: string, limit: nat, start: nat, split: nat)
    requires limit > 0 && start < |runes| && IsCut(runes, start, WindowEnd(runes, start, limit), split)
    requires CutUpTo(chunks, runes, limit, start)
    ensures CutUpTo(chunks + [runes[start..split]], runes, limit, split)
  {
    var chunk := runes[start..split];
    forall rest | WellCut(rest, runes, limit, split) ensures WellCut(chunks + [chunk] + rest, runes, limit, 0) {
      var more := [chunk] + rest;
      assert more[1..] == rest;
      assert WellCut(more, runes, limit, start);
      assert chunks + [chunk] + rest == chunks + more;
    }
  }

  /** The inner loop of chunkTelegramText: from the end of the window down. */
  method FindSplit(runes: string, start: nat, end: nat) returns (split: nat)
    requires start < end <= |runes|
    ensures IsCut(runes, start, end, split)
  {
    split := end;
    var i := end - 1;
    while i > start
      invariant start <= i < end && i < split <= end
      invariant forall k | i < k < end :: runes[k] != '\n'
      invariant split < end ==> runes[split] == ' '
      invariant forall k | (if split < end then split else i) < k < end :: runes[k] != ' '
    {
      if runes[i] == '\n' {
        split := i;
        break;
      }
      if runes[i] == ' ' && split == end {
        split := i;
      }
      i := i - 1;
    }
  }

  /** A text within the limit is one chunk; a longer one is cut well, so its chunks give it back. */
  method ChunkTelegramText(text: string, limit: int) returns (out: seq<string>)
    ensures limit <= 0 || |text| <= limit ==> out == [text]
    ensures 0 < limit < |text| ==>
      && WellCut(out, text, limit, 0)
      && Concat(out) == text
      && forall i | 0 <= i < |out| :: 1 <= |out[i]| <= limit
  {
    if limit <= 0 {
      return [text];
    }
    var runes := text;
    if |runes| <= limit {
      return [text];
    }
    out := [];
    var start := 0;
    NothingCut(runes, limit);
    while start < |runes|
      invariant 0 <= start <= |runes|
      invariant CutUpTo(out, runes, limit, start)
    {
      var end := start + limit;
      if end > |runes| {
        end := |runes|;
      }
      var split := FindSplit(runes, start, end);
      // the cut is inside the window, so this repair never happens
      assert split != start;
      if split == start {
        split := end;
      }
      ChunkNext(out, runes, limit, start, split);
      out := out + [runes[start..split]];
      start := split;
    }
    assert WellCut([], runes, limit, start) && out + [] == out;
    WellCutChunks(out, runes, limit, 0);
  }

  // ---------- the window of seen updates ----------

  function LastN<T>(s: seq<T>, n: nat): seq<T> {
    if |s| <= n then s else s[|s| - n..]
  }

  lemma LastNShape<T>(s: seq<T>, n: nat)
    ensures var r := LastN(s, n);
      |r| == (if |s| < n then |s| else n) && r == s[|s| - |r|..]
  {}

  predicate Distinct<T(==)>(s: seq<T>) {
    forall i, j | 0 <= i < j < |s| :: s[i] != s[j]
  }

  /** The accepted ids of a sequence of updates: an id is rejected while it is among the last W accepted. */
  function Accepted(ids: seq<int>, window: nat): seq<int> {
    if ids == [] then [] else
      var before, id := Accepted(ids[..|ids| - 1], window), ids[|ids| - 1];
      if id in LastN(before, window) then before else before + [id]
  }

  /** Any W + 1 consecutive accepted ids are pairwise distinct. */
  lemma {:induction false} AcceptedDistinct(ids: seq<int>, window: nat, i: nat, j: nat)
    requires i < j < |Accepted(ids, window)| && j - i <= window
    ensures Accepted(ids, window)[i] != Accepted(ids, window)[j]
  {
    var before, id := Accepted(ids[..|ids| - 1], window), ids[|ids| - 1];
    if j < |before| {
      AcceptedDistinct(ids[..|ids| - 1], window, i, j);
    } else {
      var last := LastN(before, window);
      assert last[i - (|before| - |last|)] == before[i];
    }
  }

  /** A rate-limited time is accepted at least `interval` after the last accepted one. */
  function AcceptedTimes(readings: seq<int>, interval: int): seq<int> {
    if readings == [] then [] else
      var before, now := AcceptedTimes(readings[..|readings| - 1], interval), readings[|readings| - 1];
      if before != [] && now - before[|before| - 1] < interval then before else before + [now]
  }

  /** Whatever the clock does, accepted times are at least the interval apart. */
  lemma {:induction false} AcceptedSpaced(readings: seq<int>, interval: int, i: nat, j: nat)
    requires interval > 0 && i <= j < |AcceptedTimes(readings, interval)|
    ensures AcceptedTimes(readings, interval)[j] - AcceptedTimes(readings, interval)[i] >= (j - i) * interval
  {
    if i < j {
      var init := readings[..|readings| - 1];
      var before := AcceptedTimes(init, interval);
      if j < |before| {
        AcceptedSpaced(init, interval, i, j);
      } else {
        AcceptedSpaced(init, interval, i, j - 1);
        assert (j - i) * interval == (j - 1 - i) * interval + interval;
      }
    }
  }

  lemma DivBound(k: nat, d: nat, n: nat)
    requires d > 0 && k * d <= n
    ensures k <= n / d
  {
    var q := n / d;
    assert n < (q + 1) * d;
    assert (k - q - 1) * d < 0;
  }

  /** Any closed interval of length T holds at most T / d + 1 acceptances. */
  lemma RateBound(readings: seq<int>, interval: int, i: nat, j: nat, length: nat)
    requires interval > 0 && i <= j < |AcceptedTimes(readings, interval)|
    requires AcceptedTimes(readings, interval)[j] - AcceptedTimes(readings, interval)[i] <= length
    ensures j - i + 1 <= length / interval + 1
  {
    AcceptedSpaced(readings, interval, i, j);
    DivBound(j - i, interval, length);
  }

  /** The readings of one user. */
  function ReadingsOf(events: seq<(string, int)>, user: string): seq<int> {
    if events == [] then [] else
      var before, last := ReadingsOf(events[..|events| - 1], user), events[|events| - 1];
      if last.0 == user then before + [last.1] else before
  }

  lemma AcceptedNext(ids: seq<int>, id: int, window: nat)
    ensures var before := Accepted(ids, window);
      Accepted(ids + [id], window) == if id in LastN(before, window) then before else before + [id]
  {
    assert (ids + [id])[..|ids|] == ids;
  }

  lemma AcceptedTimesNext(readings: seq<int>, now: int, interval: int)
    ensures var before := AcceptedTimes(readings, interval);
      AcceptedTimes(readings + [now], interval)
      == if before != [] && now - before[|before| - 1] < interval then before else before + [now]
  {
    assert (readings + [now])[..|readings|] == readings;
  }

  lemma ReadingsNext(events: seq<(string, int)>, event: (string, int), user: string)
    ensures ReadingsOf(events + [event], user)
      == if event.0 == user then ReadingsOf(events, user) + [event.1] else ReadingsOf(events, user)
  {
    assert (events + [event])[..|events|] == events;
  }

  lemma NextReading(events: seq<(string, int)>, user: string, now: int, interval: int)
    ensures var before := AcceptedTimes(ReadingsOf(events, user), interval);
      AcceptedTimes(ReadingsOf(events + [(user, now)], user), interval)
      == if before != [] && now - before[|before| - 1] < interval then before else before + [now]
  {
    ReadingsNext(events, (user, now), user);
    AcceptedTimesNext(ReadingsOf(events, user), now, interval);
  }

  lemma DropOldest(order: seq<int>)
    requires order != [] && Distinct(order)
    ensures forall id :: id in order[1..] <==> id in order && id != order[0]
  {
    assert order == [order[0]] + order[1..];
  }

  lemma LastNext(accepted: seq<int>, id: int, window: nat)
    requires window > 0
    ensures var order := LastN(accepted, window) + [id];
      LastN(accepted + [id], window) == if |order| > window then order[1..] else order
  {}

  function Positive(ids: seq<int>): seq<int> {
    if ids == [] then [] else
      var before, last := Positive(ids[..|ids| - 1]), ids[|ids| - 1];
      if last > 0 then before + [last] else before
  }

  /** The updates of a batch that are no duplicates, after the ids asked about before. */
  function Passed(asked: seq<int>, ids: seq<int>, window: nat): seq<int> {
    if ids == [] then [] else
      var init, last := ids[..|ids| - 1], ids[|ids| - 1];
      var before := Passed(asked, init, window);
      if last > 0 && last in LastN(Accepted(asked + Positive(init), window), window) then before else before + [last]
  }

  lemma PositiveNext(ids: seq<int>, id: int)
    ensures Positive(ids + [id]) == if id > 0 then Positive(ids) + [id] else Positive(ids)
  {
    assert (ids + [id])[..|ids|] == ids;
  }

  lemma PassedNext(asked: seq<int>, ids: seq<int>, id: int, window: nat)
    ensures var before := Passed(asked, ids, window);
      Passed(asked, ids + [id], window)
      == if id > 0 && id in LastN(Accepted(asked + Positive(ids), window), window) then before else before + [id]
  {
    assert (ids + [id])[..|ids|] == ids;
  }

  /** One more update of a batch. */
  lemma BatchNext(asked: seq<int>, ids: seq<int>, id: int, window: nat)
    ensures var sofar, passed := asked + Positive(ids), Passed(asked, ids, window);
      var rejected := id > 0 && id in LastN(Accepted(sofar, window), window);
      && asked + Positive(ids + [id]) == (if id > 0 then sofar + [id] else sofar)
      && Passed(asked, ids + [id], window) == (if rejected then passed else passed + [id])
  {
    PositiveNext(ids, id);
    PassedNext(asked, ids, id, window);
    Associative(asked, Positive(ids), [id]);
  }

  lemma BatchStep(asked: seq<int>, ids: seq<int>, i: nat, window: nat, offset: int)
    requires i < |ids|
    ensures var id, sofar, passed := ids[i], asked + Positive(ids[..i]), Passed(asked, ids[..i], window);
      var rejected := id > 0 && id in LastN(Accepted(sofar, window), window);
      && asked + Positive(ids[..i + 1]) == (if id > 0 then sofar + [id] else sofar)
      && Passed(asked, ids[..i + 1], window) == (if rejected then passed else passed + [id])
    ensures var next := NextOffset(offset, ids[..i]);
      NextOffset(offset, ids[..i + 1]) == if ids[i] >= next then ids[i] + 1 else next
  {
    assert ids[..i + 1] == ids[..i] + [ids[i]];
    BatchNext(asked, ids[..i], ids[i], window);
    OffsetNext(offset, ids[..i], ids[i]);
  }

  /** What passes is what is newly accepted: no accepted update is dropped and no other passes, but for
      ids that are not positive. */
  lemma {:induction false} PassedAreAccepted(asked: seq<int>, ids: seq<int>, window: nat)
    ensures Accepted(asked + Positive(ids), window) == Accepted(asked, window) + Positive(Passed(asked, ids, window))
  {
    if ids == [] {
      assert asked + Positive(ids) == asked;
    } else {
      var init, last := ids[..|ids| - 1], ids[|ids| - 1];
      assert ids == init + [last];
      PassedAreAccepted(asked, init, window);
      BatchNext(asked, init, last, window);
      var passed := Passed(asked, init, window);
      PositiveNext(passed, last);
      AcceptedNext(asked + Positive(init), last, window);
      Associative(Accepted(asked, window), Positive(passed), [last]);
    }
  }

  /** The polling offset after a batch. */
  function NextOffset(offset: int, ids: seq<int>): int {
    if ids == [] then offset else
      var before, id := NextOffset(offset, ids[..|ids| - 1]), ids[|ids| - 1];
      if id >= before then id + 1 else before
  }

  lemma OffsetNext(offset: int, ids: seq<int>, id: int)
    ensures var next := NextOffset(offset, ids);
      NextOffset(offset, ids + [id]) == if id >= next then id + 1 else next
  {
    assert (ids + [id])[..|ids|] == ids;
  }

  /** The offset never moves back, moves past every update, and no further than behind one of them. */
  lemma {:induction false} OffsetBounds(offset: int, ids: seq<int>)
    ensures NextOffset(offset, ids) >= offset
    ensures forall i | 0 <= i < |ids| :: ids[i] < NextOffset(offset, ids)
    ensures NextOffset(offset, ids) == offset || exists i | 0 <= i < |ids| :: NextOffset(offset, ids) == ids[i] + 1
  {
    if ids != [] {
      var init := ids[..|ids| - 1];
      OffsetBounds(offset, init);
      assert forall i | 0 <= i < |init| :: init[i] == ids[i];
      assert NextOffset(offset, ids) == NextOffset(offset, init) || NextOffset(offset, ids) == ids[|ids| - 1] + 1;
    }
  }

  class TelegramAdapter {
    const minUserInterval: int
    const dedupeWindow: int
    var seenUpdateOrder: seq<int>
    var seenUpdateSet: set<int>
    var lastInboundByUser: map<string, int>

    /** The positive update ids and the (user, time) pairs asked about so far. */
    ghost var asked: seq<int>
    ghost var inbound: seq<(string, int)>

    ghost predicate ValidWindow()
      reads this`seenUpdateOrder, this`seenUpdateSet, this`asked
    {
      && dedupeWindow > 0
      && seenUpdateOrder == LastN(Accepted(asked, dedupeWindow), dedupeWindow)
      && (forall id :: id in seenUpdateSet <==> id in seenUpdateOrder)
      && Distinct(seenUpdateOrder)
    }

    ghost predicate ValidTime(user: string)
      reads this`lastInboundByUser, this`inbound
    {
      var times := AcceptedTimes(ReadingsOf(inbound, user), minUserInterval);
      if times == [] then user !in lastInboundByUser
      else user in lastInboundByUser && lastInboundByUser[user] == times[|times| - 1]
    }

    ghost predicate ValidTimes()
      reads this`lastInboundByUser, this`inbound
    {
      minUserInterval > 0 ==> forall user :: ValidTime(user)
    }

    constructor (minUserInterval: int, dedupeWindow: int)
      ensures ValidWindow() && ValidTimes() && asked == [] && inbound == []
      ensures this.minUserInterval == (if minUserInterval < 0 then 0 else minUserInterval)
      ensures this.dedupeWindow == (if dedupeWindow <= 0 then 2048 else dedupeWindow)
    {
      this.minUserInterval := if minUserInterval < 0 then 0 else minUserInterval;
      this.dedupeWindow := if dedupeWindow <= 0 then 2048 else dedupeWindow;
      seenUpdateOrder, seenUpdateSet, lastInboundByUser := [], {}, map[];
      asked, inbound := [], [];
    }

    /** Rejects exactly the ids among the last W accepted ones; ids that are not positive pass. */
    method IsDuplicateUpdate(updateID: int) returns (duplicate: bool)
      requires ValidWindow()
      modifies this`seenUpdateOrder, this`seenUpdateSet, this`asked
      ensures ValidWindow() && |seenUpdateOrder| <= dedupeWindow
      ensures asked == if updateID > 0 then old(asked) + [updateID] else old(asked)
      ensures duplicate <==> updateID > 0 && updateID in LastN(Accepted(old(asked), dedupeWindow), dedupeWindow)
    {
      if updateID <= 0 || dedupeWindow <= 0 {
        return false;
      }
      AcceptedNext(asked, updateID, dedupeWindow);
      LastNext(Accepted(asked, dedupeWindow), updateID, dedupeWindow);
      asked := asked + [updateID];
      if updateID in seenUpdateSet {
        return true;
      }
      seenUpdateSet := seenUpdateSet + {updateID};
      seenUpdateOrder := seenUpdateOrder + [updateID];
      if |seenUpdateOrder| > dedupeWindow {
        DropOldest(seenUpdateOrder);
        var oldest := seenUpdateOrder[0];
        seenUpdateOrder := seenUpdateOrder[1..];
        seenUpdateSet := seenUpdateSet - {oldest};
      }
      return false;
    }

    /** Accepts exactly what the run of this user's readings accepts; other users are not affected. */
    method AllowByRateLimit(userID: string, now: int) returns (allowed: bool)
      requires ValidTimes()
      modifies this`lastInboundByUser, this`inbound
      ensures ValidTimes() && inbound == old(inbound) + [(userID, now)]
      ensures minUserInterval <= 0 ==> allowed
      ensures minUserInterval > 0 ==>
        var before := AcceptedTimes(ReadingsOf(old(inbound), userID), minUserInterval);
        AcceptedTimes(ReadingsOf(inbound, userID), minUserInterval) == if allowed then before + [now] else before
    {
      ghost var before := inbound;
      inbound := inbound + [(userID, now)];
      if minUserInterval <= 0 {
        return true;
      }
      assert old(ValidTime(userID));
      NextReading(before, userID, now, minUserInterval);
      allowed := !(userID in lastInboundByUser && now - lastInboundByUser[userID] < minUserInterval);
      if allowed {
        lastInboundByUser := lastInboundByUser[userID := now];
      }
      forall user ensures ValidTime(user) {
        assert old(ValidTime(user));
        ReadingsNext(before, (userID, now), user);
      }
    }

    /** One batch of RunPolling: exactly the updates that are no duplicates pass. */
    method PollBatch(offset: int, updates: seq<int>) returns (next: int, passed: seq<int>)
      requires ValidWindow()
      modifies this`seenUpdateOrder, this`seenUpdateSet, this`asked
      ensures ValidWindow()
      ensures next == NextOffset(offset, updates)
      ensures asked == old(asked) + Positive(updates)
      ensures passed == Passed(old(asked), updates, dedupeWindow)
    {
      next, passed := offset, [];
      ghost var before := asked;
      assert before + Positive(updates[..0]) == before;
      for i := 0 to |updates|
        invariant ValidWindow()
        invariant next == NextOffset(offset, updates[..i])
        invariant asked == before + Positive(updates[..i])
        invariant passed == Passed(before, updates[..i], dedupeWindow)
      {
        var id := updates[i];
        BatchStep(before, updates, i, dedupeWindow, offset);
        if id >= next {
          next := id + 1;
        }
        var duplicate := IsDuplicateUpdate(id);
        if duplicate {
          continue;
        }
        passed := passed + [id];
      }
      assert updates[..|updates|] == updates;
    }
  }
}
