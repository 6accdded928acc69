/**
 Reading an agent's growing event log. A read resumes at the byte offset that the previous one left in
 the cache, and must come to the state that a read from the first byte comes to.
 */
module EventLog {
  import opened Options
  import opened EventState
  import opened Lines

  const MAX_EVENT_LINE_BYTES := 2 * 1024 * 1024
  const MAX_CACHED_FILES := 128

  /** What a complete line says, if it is a record with a payload at all. */
  type Parser = Bytes -> Option<Record>

  // ---------------------------------------------------------------- lines

  function Line(s: State, line: Bytes, parse: Parser): State {
    if |line| <= MAX_EVENT_LINE_BYTES + 1 && parse(line).Some? then Step(s, parse(line).value) else s
  }

  /** The state after all complete lines; over-long lines are skipped. */
  function Replay(s: State, b: Bytes, parse: Parser): State
    decreases |b|
  {
    var n := LineLength(b);
    if n == 0 then s else Replay(Line(s, b[..n], parse), b[n..], parse)
  }

  /** The records of a log: those that its complete lines of acceptable length parse to, in order. */
  function Records(lines: seq<Bytes>, parse: Parser): seq<Record> {
    if lines == [] then []
    else
      var line := lines[0];
      (if line != [] && line[|line| - 1] == NEWLINE && |line| <= MAX_EVENT_LINE_BYTES + 1 && parse(line).Some? then [parse(line).value] else [])
      + Records(lines[1..], parse)
  }

  /** A replay interprets exactly the records of the log's lines, one after the other. */
  lemma {:induction false} ReplayIsTheRecords(s: State, b: Bytes, parse: Parser)
    ensures Replay(s, b, parse) == Fold(s, Records(AllLines(b), parse))
    decreases |b|
  {
    hide LineLength, Line, Replay, Fold, Records, AllLines;
    var n := LineLength(b);
    ReplayOfFirst(s, b, parse);
    if n == 0 {
      NoCompleteLine(b, parse);
      assert Fold(s, []) == s by { FoldOfNone(s); }
    } else {
      ReplayIsTheRecords(Line(s, b[..n], parse), b[n..], parse);
      RecordsOfFirst(b, parse);
      FoldOfFirst(s, b[..n], Records(AllLines(b[n..]), parse), parse);
    }
  }

  lemma FoldOfNone(s: State)
    ensures Fold(s, []) == s
  {
  }

  lemma ReplayOfFirst(s: State, b: Bytes, parse: Parser)
    ensures var n := LineLength(b); Replay(s, b, parse) == if n == 0 then s else Replay(Line(s, b[..n], parse), b[n..], parse)
  {
    hide LineLength, Line;
  }

  lemma RecordsOfFirst(b: Bytes, parse: Parser)
    requires LineLength(b) > 0
    ensures var n := LineLength(b);
            Records(AllLines(b), parse)
            == (if n <= MAX_EVENT_LINE_BYTES + 1 && parse(b[..n]).Some? then [parse(b[..n]).value] else []) + Records(AllLines(b[n..]), parse)
  {
    hide LineLength, AllLines;
    var n := LineLength(b);
    FirstOfAll(b);
    assert AllLines(b)[1..] == AllLines(b[n..]);
    assert b[..n][n - 1] == NEWLINE;
  }

  lemma FoldOfFirst(s: State, line: Bytes, more: seq<Record>, parse: Parser)
    ensures Fold(Line(s, line, parse), more)
            == Fold(s, (if |line| <= MAX_EVENT_LINE_BYTES + 1 && parse(line).Some? then [parse(line).value] else []) + more)
  {
    hide Step;
    if |line| <= MAX_EVENT_LINE_BYTES + 1 && parse(line).Some? {
      assert ([parse(line).value] + more)[1..] == more;
    } else {
      assert [] + more == more;
    }
  }

  lemma FirstOfAll(b: Bytes)
    requires LineLength(b) > 0
    ensures AllLines(b) == [b[..LineLength(b)]] + AllLines(b[LineLength(b)..])
  {
    hide LineLength;
  }

  lemma NoCompleteLine(b: Bytes, parse: Parser)
    requires LineLength(b) == 0
    ensures Records(AllLines(b), parse) == []
  {
    if b != [] {
      assert FirstLine(b) == b && b[|b|..] == [];
      assert AllLines(b) == [b] && [b][1..] == [];
      assert b[|b| - 1] in b;
    }
  }

  /** The number of bytes after the last newline. */
  function TailLength(b: Bytes): (t: nat)
    ensures t <= |b|
    decreases |b|
  {
    if LineLength(b) == 0 then |b| else TailLength(b[LineLength(b)..])
  }

  lemma {:induction false} TailHasNoNewline(b: Bytes)
    ensures NEWLINE !in b[|b| - TailLength(b)..]
    ensures TailLength(b) < |b| ==> b[|b| - TailLength(b) - 1] == NEWLINE
    decreases |b|
  {
    hide LineLength;
    var n := LineLength(b);
    if n == 0 {
      assert b[0..] == b;
    } else {
      assert TailLength(b) == TailLength(b[n..]);
      TailHasNoNewline(b[n..]);
      SameTailAfter(b, n, TailLength(b[n..]));
    }
  }

  lemma SameTailAfter(b: Bytes, n: nat, t: nat)
    requires 0 < n <= |b| && b[n - 1] == NEWLINE && t <= |b| - n
    ensures b[n..][|b| - n - t..] == b[|b| - t..]
    ensures t < |b| - n ==> b[n..][|b| - n - t - 1] == b[|b| - t - 1]
    ensures t == |b| - n ==> b[|b| - t - 1] == NEWLINE
  {
  }

  /** A read leaves off after the last complete line, but at the end of the file when the tail is over-long. */
  function LeftOff(b: Bytes): nat {
    if TailLength(b) <= MAX_EVENT_LINE_BYTES + 1 then |b| - TailLength(b) else |b|
  }

  predicate AtBoundary(b: Bytes, offset: nat) {
    offset == 0 || (offset <= |b| && b[offset - 1] == NEWLINE)
  }

  /** The offset is at a line boundary exactly if the file has no over-long line that is still being written. */
  lemma LeftOffIsABoundary(b: Bytes)
    ensures AtBoundary(b, LeftOff(b)) <==> TailLength(b) <= MAX_EVENT_LINE_BYTES + 1
  {
    hide TailLength;
    TailEnds(b);
  }

  /** The byte before the tail is a newline; the last byte of a tail is none. */
  lemma TailEnds(b: Bytes)
    ensures TailLength(b) < |b| ==> b[|b| - TailLength(b) - 1] == NEWLINE
    ensures TailLength(b) > 0 ==> b[|b| - 1] != NEWLINE
  {
    hide TailLength;
    TailHasNoNewline(b);
    if TailLength(b) > 0 { LastOfTail(b, TailLength(b)); }
  }

  lemma LastOfTail(b: Bytes, t: nat)
    requires 0 < t <= |b| && NEWLINE !in b[|b| - t..]
    ensures b[|b| - 1] != NEWLINE
  {
    assert b[|b| - t..][t - 1] == b[|b| - 1];
  }

  /** Reading a then b is reading a + b, when a ends with a complete line. */
  lemma {:induction false} ReplayInTwoParts(s: State, a: Bytes, b: Bytes, parse: Parser)
    requires TailLength(a) == 0
    ensures Replay(s, a + b, parse) == Replay(Replay(s, a, parse), b, parse)
    decreases |a|
  {
    hide LineLength, Line;
    var n := LineLength(a);
    FirstLineOfBoth(a, b);
    if n == 0 {
      assert a == [];
      assert a + b == b;
    } else {
      CutFirstLine(a, b, n);
      ReplayInTwoParts(Line(s, a[..n], parse), a[n..], b, parse);
    }
  }

  function Whole(b: Bytes): Bytes {
    b[..|b| - TailLength(b)]
  }

  lemma WholeSplits(b: Bytes)
    requires LineLength(b) > 0
    ensures var n := LineLength(b);
            && Whole(b) == b[..n] + Whole(b[n..]) && LineLength(Whole(b)) == n
            && Whole(b)[..n] == b[..n] && Whole(b)[n..] == Whole(b[n..])
  {
    hide LineLength, TailLength;
    var n := LineLength(b);
    OneLine(b);
    TailSkipsALine(b);
    FirstLineOfBoth(b[..n], Whole(b[n..]));
    WholeAfter(b, n);
    CutFirstLine(b[..n], Whole(b[n..]), n);
  }

  lemma TailSkipsALine(b: Bytes)
    requires LineLength(b) > 0
    ensures TailLength(b) == TailLength(b[LineLength(b)..])
  {
    hide LineLength;
  }

  lemma WholeAfter(b: Bytes, n: nat)
    requires n <= |b| && TailLength(b) == TailLength(b[n..])
    ensures Whole(b) == b[..n] + Whole(b[n..])
  {
    hide TailLength;
    TakeInTwo(b, n, |b| - TailLength(b));
  }

  lemma TakeInTwo(b: Bytes, n: nat, k: nat)
    requires n <= k <= |b|
    ensures b[..k] == b[..n] + b[n..][..k - n]
  {
  }

  /** The unfinished tail adds nothing to what the complete lines say. */
  lemma {:induction false} CutAtTheTail(s: State, b: Bytes, parse: Parser)
    ensures TailLength(Whole(b)) == 0
    ensures Replay(s, Whole(b), parse) == Replay(s, b, parse)
    decreases |b|
  {
    hide Line, Whole;
    var n := LineLength(b);
    if n > 0 {
      WholeSplits(b);
      CutAtTheTail(Line(s, b[..n], parse), b[n..], parse);
    } else {
      assert Whole(b) == [] by { NothingWhole(b); }
    }
  }

  lemma NothingWhole(b: Bytes)
    requires LineLength(b) == 0
    ensures Whole(b) == []
  {
  }

  // ---------------------------------------------------------------- one read

  /** A bounded read up to a newline: at most limit bytes, and nothing after the first newline. */
  function ReadUntil(b: Bytes, limit: nat): (line: Bytes)
    ensures line <= b && |line| <= limit
  {
    var n := LineLength(b);
    if 0 < n <= limit then b[..n] else if |b| <= limit then b else b[..limit]
  }

  function SkipUntil(b: Bytes): (n: nat)
    ensures n <= |b| && (n == 0 <==> b == [])
  {
    if LineLength(b) > 0 then LineLength(b) else |b|
  }

  /** What one read from the offset on comes to. */
  function ReadFrom(s: State, b: Bytes, offset: nat, parse: Parser): State
    requires offset <= |b|
  {
    Replay(s, b[offset..], parse)
  }

  /** The line loop, from where the reader stands to the end of the file. */
  method ReadLines(b: Bytes, from: nat, s: State, parse: Parser) returns (offset: nat, state: State)
    requires from <= |b|
    ensures state == ReadFrom(s, b, from, parse)
    ensures offset == from + LeftOff(b[from..]) <= |b|
  {
    hide Replay, Line, Step, LeftOff, TailLength, LineLength, ReadUntil, SkipUntil;
    var live := new Interpreter(s);
    offset := from;
    while true
      invariant from <= offset <= |b| && fresh(live)
      invariant Replay(live.Value(), b[offset..], parse) == Replay(s, b[from..], parse)
      invariant offset + LeftOff(b[offset..]) == from + LeftOff(b[from..])
      decreases |b| - offset
    {
      var rest := b[offset..];
      var line := ReadUntil(rest, MAX_EVENT_LINE_BYTES + 1);
      if |line| == 0 {
        NothingLeft(live.Value(), rest, parse);
        break;
      }
      if line[|line| - 1] != NEWLINE {
        if |line| <= MAX_EVENT_LINE_BYTES {
          UnfinishedLine(live.Value(), rest, line, parse);
          break;
        }
        // Skip large tool payloads without retaining them in memory.
        var skipped := SkipUntil(rest[|line|..]);
        if skipped == 0 {
          UnfinishedLine(live.Value(), rest, line, parse);
          break;
        }
        LongLine(live.Value(), rest, line, parse);
        assert b[offset + |line| + skipped..] == rest[|line| + skipped..];
        offset := offset + |line| + skipped;
        continue;
      }
      CompleteLine(live.Value(), rest, line, parse);
      assert b[offset + |line|..] == rest[|line|..];
      offset := offset + |line|;
      var record := parse(line);
      if record.Some? {
        live.Observe(record.value);
      }
    }
    state := live.Value();
  }

  lemma NothingLeft(s: State, rest: Bytes, parse: Parser)
    requires ReadUntil(rest, MAX_EVENT_LINE_BYTES + 1) == []
    ensures Replay(s, rest, parse) == s && LeftOff(rest) == 0
  {
  }

  lemma UnfinishedLine(s: State, rest: Bytes, line: Bytes, parse: Parser)
    requires line == ReadUntil(rest, MAX_EVENT_LINE_BYTES + 1) && line != [] && line[|line| - 1] != NEWLINE
    requires |line| <= MAX_EVENT_LINE_BYTES || SkipUntil(rest[|line|..]) == 0
    ensures Replay(s, rest, parse) == s && LeftOff(rest) == 0
  {
    assert rest == line + rest[|line|..];
    assert rest[|line|..] == [];
    assert LineLength(rest) == 0;
  }

  lemma LongLine(s: State, rest: Bytes, line: Bytes, parse: Parser)
    requires line == ReadUntil(rest, MAX_EVENT_LINE_BYTES + 1) && |line| == MAX_EVENT_LINE_BYTES + 1 && line[|line| - 1] != NEWLINE
    requires SkipUntil(rest[|line|..]) > 0
    ensures var n := |line| + SkipUntil(rest[|line|..]);
            && n <= |rest| && Replay(s, rest[n..], parse) == Replay(s, rest, parse)
            && n + LeftOff(rest[n..]) == LeftOff(rest)
  {
    NoNewlineInLong(rest, line);
    SkippedLength(rest, line);
    hide ReadUntil, SkipUntil, Step;
    var n := |line| + SkipUntil(rest[|line|..]);
    if LineLength(rest) == 0 {
      assert rest[n..] == [];
    } else {
      assert Line(s, rest[..n], parse) == s;
    }
  }

  /** What is skipped after an over-long prefix ends with the line, or with the file. */
  lemma SkippedLength(rest: Bytes, line: Bytes)
    requires line <= rest && LineLength(line) == 0 && |line| < |rest|
    ensures |line| + SkipUntil(rest[|line|..]) == if LineLength(rest) > 0 then LineLength(rest) else |rest|
  {
    hide LineLength;
    assert rest == line + rest[|line|..];
    FirstLineOfBoth(line, rest[|line|..]);
  }

  lemma NoNewlineInLong(rest: Bytes, line: Bytes)
    requires line == ReadUntil(rest, MAX_EVENT_LINE_BYTES + 1) && |line| == MAX_EVENT_LINE_BYTES + 1 && line[|line| - 1] != NEWLINE
    ensures LineLength(line) == 0
  {
    var n := LineLength(line);
    assert rest == line + rest[|line|..];
    FirstLineOfBoth(line, rest[|line|..]);
  }

  lemma CompleteLine(s: State, rest: Bytes, line: Bytes, parse: Parser)
    requires line == ReadUntil(rest, MAX_EVENT_LINE_BYTES + 1) && line != [] && line[|line| - 1] == NEWLINE
    ensures var s' := if parse(line).Some? then Step(s, parse(line).value) else s;
            Replay(s', rest[|line|..], parse) == Replay(s, rest, parse)
    ensures |line| + LeftOff(rest[|line|..]) == LeftOff(rest)
  {
    hide Step;
    assert rest == line + rest[|line|..];
    assert line[|line| - 1] in line;
    FirstLineOfBoth(line, rest[|line|..]);
    assert LineLength(rest) == |line|;
  }

  // ---------------------------------------------------------------- resuming

  /** A read that resumes where an earlier one left off agrees with a read from the start. */
  lemma ResumingAgrees(seen: Bytes, now: Bytes, parse: Parser)
    requires seen <= now && TailLength(seen) <= MAX_EVENT_LINE_BYTES + 1
    ensures ReadFrom(Replay(INITIAL, seen, parse), now, LeftOff(seen), parse) == Replay(INITIAL, now, parse)
    ensures LeftOff(seen) + LeftOff(now[LeftOff(seen)..]) == LeftOff(now)
  {
    hide Replay, TailLength, Whole;
    var whole := Whole(seen);
    CutAtTheTail(INITIAL, seen, parse);
    WholeIsLeftOff(seen, now);
    var more := now[|whole|..];
    ReplayInTwoParts(INITIAL, whole, more, parse);
    TailOfBoth(whole, more);
    assert |now| == |whole| + |more|;
  }

  lemma WholeIsLeftOff(seen: Bytes, now: Bytes)
    requires seen <= now && TailLength(seen) <= MAX_EVENT_LINE_BYTES + 1
    ensures |Whole(seen)| == LeftOff(seen) <= |now| && now == Whole(seen) + now[LeftOff(seen)..]
  {
    hide TailLength;
  }

  lemma {:induction false} TailOfBoth(a: Bytes, b: Bytes)
    requires TailLength(a) == 0
    ensures TailLength(a + b) == TailLength(b)
    decreases |a|
  {
    hide LineLength;
    var n := LineLength(a);
    FirstLineOfBoth(a, b);
    if n == 0 {
      assert a + b == b;
    } else {
      CutFirstLine(a, b, n);
      TailOfBoth(a[n..], b);
    }
  }

  // ---------------------------------------------------------------- an over-long line that is still being written

  lemma {:induction false} SameTail(s: State, seen: Bytes, more: Bytes, parse: Parser)
    ensures Replay(s, seen + more, parse)
            == Replay(Replay(s, seen, parse), seen[|seen| - TailLength(seen)..] + more, parse)
  {
    hide Replay, TailLength, Whole;
    var whole, tail := Whole(seen), seen[|seen| - TailLength(seen)..];
    CutAtTheTail(s, seen, parse);
    assert seen == whole + tail by { SplitAtTail(seen); }
    assert seen + more == whole + (tail + more);
    ReplayInTwoParts(s, whole, tail + more, parse);
  }

  lemma SplitAtTail(seen: Bytes)
    ensures seen == Whole(seen) + seen[|seen| - TailLength(seen)..]
  {
    hide TailLength, LineLength;
    TwoParts(seen, |seen| - TailLength(seen));
  }

  lemma TwoParts(b: Bytes, n: nat)
    requires n <= |b|
    ensures b == b[..n] + b[n..]
  {
  }

  /**
   After a read that met an over-long unfinished line, the next read takes the rest of that line for a line of
   its own, while a read from the start skips it.
   */
  lemma RestOfLongLineIsRead(s: State, seen: Bytes, more: Bytes, parse: Parser)
    requires TailLength(seen) > MAX_EVENT_LINE_BYTES + 1
    ensures LeftOff(seen) == |seen|
    ensures ReadFrom(Replay(s, seen, parse), seen + more, LeftOff(seen), parse) == Replay(Replay(s, seen, parse), more, parse)
    ensures Replay(s, seen + more, parse)
            == if LineLength(more) == 0 then Replay(s, seen, parse) else Replay(Replay(s, seen, parse), more[LineLength(more)..], parse)
  {
    assert (seen + more)[|seen|..] == more;
    SameTail(s, seen, more, parse);
    TailHasNoNewline(seen);
    SkipsTheLong(Replay(s, seen, parse), seen[|seen| - TailLength(seen)..], more, parse);
  }

  lemma SkipsTheLong(s: State, tail: Bytes, more: Bytes, parse: Parser)
    requires NEWLINE !in tail && |tail| > MAX_EVENT_LINE_BYTES + 1
    ensures Replay(s, tail + more, parse) == if LineLength(more) == 0 then s else Replay(s, more[LineLength(more)..], parse)
  {
    hide Replay, LineLength;
    FirstLineOfBoth(tail, more);
    ReplayUnfolds(s, tail + more, parse);
    DropBoth(tail, more, LineLength(more));
  }

  lemma ReplayUnfolds(s: State, b: Bytes, parse: Parser)
    ensures LineLength(b) == 0 ==> Replay(s, b, parse) == s
    ensures LineLength(b) > MAX_EVENT_LINE_BYTES + 1 ==> Replay(s, b, parse) == Replay(s, b[LineLength(b)..], parse)
  {
    hide LineLength, Step;
  }

  lemma DropBoth(a: Bytes, b: Bytes, n: nat)
    requires n <= |b|
    ensures (a + b)[|a| + n..] == b[n..]
  {
  }

  const THINKS := Record(None, Reasoning)
  const EDITS := Record(None, SideActivity(Editing))

  /** Two short lines that say different things, for any state to be changed by one of them. */
  function Says(line: Bytes): Option<Record> {
    if line == [NEWLINE] then Some(THINKS) else if line == [65, NEWLINE] then Some(EDITS) else None
  }

  /**
   Resuming is right for every parser and every continuation exactly if the earlier read did not stop in an
   over-long unfinished line.
   */
  lemma TailDecidesResuming(seen: Bytes)
    ensures TailLength(seen) <= MAX_EVENT_LINE_BYTES + 1 <==>
            forall parse: Parser, now :: seen <= now
              ==> ReadFrom(Replay(INITIAL, seen, parse), now, LeftOff(seen), parse) == Replay(INITIAL, now, parse)
  {
    hide Replay, Step, TailLength;
    if TailLength(seen) <= MAX_EVENT_LINE_BYTES + 1 {
      forall parse: Parser, now | seen <= now
        ensures ReadFrom(Replay(INITIAL, seen, parse), now, LeftOff(seen), parse) == Replay(INITIAL, now, parse)
      {
        ResumingAgrees(seen, now, parse);
      }
    } else {
      var more := LongTailMisleads(seen);
      assert seen <= seen + more;
    }
  }

  lemma LongTailMisleads(seen: Bytes) returns (more: Bytes)
    requires TailLength(seen) > MAX_EVENT_LINE_BYTES + 1
    ensures LeftOff(seen) <= |seen + more|
    ensures ReadFrom(Replay(INITIAL, seen, Says), seen + more, LeftOff(seen), Says) != Replay(INITIAL, seen + more, Says)
  {
    hide Replay, Step, TailLength;
    var s := Replay(INITIAL, seen, Says);
    more := if s.activity == Some(Thinking) then [65, NEWLINE] else [NEWLINE];
    RestOfLongLineIsRead(INITIAL, seen, more, Says);
    OneShortLine(s, more, Says);
    EmptyAfter(s, more, Says);
    SaysChanges(s);
  }

  lemma OneShortLine(s: State, line: Bytes, parse: Parser)
    requires (line == [NEWLINE] || line == [65, NEWLINE]) && parse(line).Some?
    ensures LineLength(line) == |line| && Replay(s, line, parse) == Step(s, parse(line).value)
  {
    hide Step;
    assert line[1..] == if |line| == 1 then [] else [NEWLINE];
    assert line[..|line|] == line && line[|line|..] == [];
  }

  lemma EmptyAfter(s: State, line: Bytes, parse: Parser)
    ensures Replay(s, line[|line|..], parse) == s
  {
    assert line[|line|..] == [];
  }

  lemma SaysChanges(s: State)
    ensures s.activity != Some(Thinking) ==> Step(s, THINKS) != s
    ensures s.activity == Some(Thinking) ==> Step(s, EDITS) != s
  {
    assert Step(s, THINKS).activity == Some(Thinking);
    assert Step(s, EDITS).activity == Some(Editing);
  }

  // ---------------------------------------------------------------- the cache

  type Path = nat

  datatype Cached = Cached(identity: nat, modified: nat, length: nat, offset: nat, state: State)

  /** A file as one read meets it: its metadata when opened, and the bytes up to where the read ends. */
  datatype Sight = Sight(identity: nat, modified: nat, length: nat, content: Bytes)

  predicate Usable(entry: Cached, file: Sight) {
    entry.identity == file.identity && entry.length <= file.length
    && (entry.length != file.length || entry.modified == file.modified)
  }

  /** The file that the entry was made from, which has only grown since: the same one, not shorter, and changed if it is longer only. */
  ghost predicate HasOnlyGrown(entry: Cached, file: Sight) {
    && file.identity == entry.identity && entry.length <= file.length
    && (file.length == entry.length ==> file.modified == entry.modified)
  }

  /** A sure entry is what a read from the first byte of the content it was made from comes to. */
  ghost predicate EntriesRight(cache: map<Path, Cached>, shown: map<Path, Bytes>, sure: set<Path>, parse: Parser) {
    forall p :: p in cache ==>
      && p in shown && cache[p].offset <= |shown[p]|
      && (p in sure ==> cache[p].offset == LeftOff(shown[p]) && cache[p].state == Replay(INITIAL, shown[p], parse))
  }

  lemma EntryIsRight(cache: map<Path, Cached>, shown: map<Path, Bytes>, sure: set<Path>, parse: Parser, p: Path)
    requires EntriesRight(cache, shown, sure, parse) && p in cache
    ensures p in shown && cache[p].offset <= |shown[p]|
    ensures p in sure ==> cache[p].offset == LeftOff(shown[p]) && cache[p].state == Replay(INITIAL, shown[p], parse)
  {
  }

  /** No entry but the path's own is new or different. */
  ghost predicate Undisturbed(before: map<Path, Cached>, after: map<Path, Cached>, sure: set<Path>, sure': set<Path>, path: Path) {
    forall q :: q in after && q != path ==> q in before && after[q] == before[q] && (q in sure' <==> q in sure)
  }

  lemma OneReplaced(before: map<Path, Cached>, fewer: map<Path, Cached>, sure: set<Path>, path: Path, entry: Cached, right: bool)
    requires forall q :: q in fewer ==> q in before && q != path && fewer[q] == before[q]
    ensures Undisturbed(before, fewer[path := entry], sure, if right then sure + {path} else sure - {path}, path)
    ensures |fewer[path := entry]| <= |fewer| + 1
    ensures fewer == before - {path} ==> fewer[path := entry].Keys == before.Keys + {path}
  {
    OneMoreEntry(fewer, path, entry);
    assert fewer == before - {path} ==> fewer.Keys == before.Keys - {path};
  }

  lemma OneMoreEntry(fewer: map<Path, Cached>, path: Path, entry: Cached)
    ensures fewer[path := entry].Keys == fewer.Keys + {path} && |fewer[path := entry]| <= |fewer| + 1
  {
    var after := fewer[path := entry];
    assert after.Keys == fewer.Keys + {path};
    assert |after.Keys| == |after| && |fewer.Keys| == |fewer|;
  }

  lemma EntriesStayRight(cache: map<Path, Cached>, shown: map<Path, Bytes>, sure: set<Path>, parse: Parser,
                         fewer: map<Path, Cached>, p: Path, c: Cached, b: Bytes, isSure: bool)
    requires EntriesRight(cache, shown, sure, parse) && forall q :: q in fewer ==> q in cache && fewer[q] == cache[q]
    requires c.offset <= |b| && (isSure ==> c.offset == LeftOff(b) && c.state == Replay(INITIAL, b, parse))
    ensures EntriesRight(fewer[p := c], shown[p := b], if isSure then sure + {p} else sure - {p}, parse)
  {
  }

  /** The read began where it had to, or it resumed from a sure entry that met no over-long unfinished line. */
  ghost predicate StartsRight(resumed: bool, sure: bool, seen: Bytes) {
    !resumed || (sure && TailLength(seen) <= MAX_EVENT_LINE_BYTES + 1)
  }

  class LogReader {
    const parse: Parser
    var cache: map<Path, Cached>
    ghost var shown: map<Path, Bytes>   // what the read that made the entry came to
    ghost var sure: set<Path>           // entries that no over-long unfinished line has misled

    ghost predicate Valid()
      reads this
    {
      |cache| <= MAX_CACHED_FILES && EntriesRight(cache, shown, sure, parse)
    }

    constructor (parse: Parser)
      ensures Valid() && this.parse == parse
    {
      this.parse := parse;
      cache, shown, sure := map[], map[], {};
    }

    /** Where the read begins, and the state it begins with. */
    method ResumePoint(path: Path, file: Sight) returns (offset: nat, start: State, ghost resumed: bool)
      requires Valid()
      requires path in cache && Usable(cache[path], file) ==> path in shown && shown[path] <= file.content
      ensures resumed <==> path in cache && Usable(cache[path], file)
      ensures resumed ==> offset == cache[path].offset && start == cache[path].state
      ensures !resumed ==> offset == 0 && start == INITIAL
      ensures offset <= |file.content|
      ensures StartsRight(resumed, path in sure, if resumed then shown[path] else []) ==>
                && ReadFrom(start, file.content, offset, parse) == Replay(INITIAL, file.content, parse)
                && offset + LeftOff(file.content[offset..]) == LeftOff(file.content)
    {
      hide Replay, TailLength, LeftOff, EntriesRight, ReadFrom;
      offset, start, resumed := 0, INITIAL, false;
      if path in cache && Usable(cache[path], file) {
        EntryIsRight(cache, shown, sure, parse, path);
        offset, start, resumed := cache[path].offset, cache[path].state, true;
        if StartsRight(true, path in sure, shown[path]) {
          ResumingAgrees(shown[path], file.content, parse);
        }
      } else {
        FromTheFirstByte(INITIAL, file.content, parse);
      }
    }

    /**
     The state of a log. Files only grow while they keep their identity. A resumed read continues the cached state;
     it gives the state of a read from the first byte unless an earlier read stopped in an over-long unfinished line.
     */
    method Read(path: Path, file: Sight) returns (state: State, ghost resumed: bool)
      requires Valid() && file.length <= |file.content|
      requires path in cache && HasOnlyGrown(cache[path], file) ==> path in shown && shown[path] <= file.content
      modifies this
      ensures Valid()
      ensures resumed <==> path in old(cache) && HasOnlyGrown(old(cache)[path], file)
      ensures resumed ==> old(cache)[path].offset <= |file.content|
                          && state == ReadFrom(old(cache)[path].state, file.content, old(cache)[path].offset, parse)
      ensures path in sure <==> StartsRight(resumed, path in old(sure), if resumed then old(shown)[path] else [])
      ensures path in sure ==> state == Replay(INITIAL, file.content, parse)
      ensures path in cache && cache[path].state == state && shown == old(shown)[path := file.content]
      ensures path in sure ==> cache[path] == Cached(file.identity, file.modified, file.length, LeftOff(file.content), state)
      ensures Undisturbed(old(cache), cache, old(sure), sure, path)
      ensures |old(cache) - {path}| < MAX_CACHED_FILES ==> cache.Keys == old(cache).Keys + {path}
    {
      hide Replay, TailLength, LeftOff, EntriesRight, ReadFrom, StartsRight;
      var offset, start;
      offset, start, resumed := ResumePoint(path, file);
      ghost var right := StartsRight(resumed, path in sure, if resumed then shown[path] else []);
      offset, state := ReadLines(file.content, offset, start, parse);
      Remember(path, Cached(file.identity, file.modified, file.length, offset, state), file.content, right);
    }

    /** Replaces the path's entry, evicting others if the cache is full without it. */
    method Remember(path: Path, entry: Cached, ghost content: Bytes, ghost right: bool)
      requires Valid() && entry.offset <= |content|
      requires right ==> entry.offset == LeftOff(content) && entry.state == Replay(INITIAL, content, parse)
      modifies this
      ensures Valid() && (path in sure <==> right)
      ensures path in cache && cache[path] == entry && shown == old(shown)[path := content]
      ensures Undisturbed(old(cache), cache, old(sure), sure, path)
      ensures |old(cache) - {path}| < MAX_CACHED_FILES ==> cache.Keys == old(cache).Keys + {path}
    {
      hide Replay, LeftOff, EntriesRight, Undisturbed;
      cache := cache - {path};
      Evict();
      ghost var fewer := cache;
      EntriesStayRight(old(cache), old(shown), old(sure), parse, fewer, path, entry, content, right);
      OneReplaced(old(cache), fewer, old(sure), path, entry, right);
      cache := cache[path := entry];
      shown := shown[path := content];
      sure := if right then sure + {path} else sure - {path};
    }

    /** Makes room for one more entry, dropping the least paths. */
    method Evict()
      modifies this`cache
      ensures |cache| < MAX_CACHED_FILES
      ensures forall q :: q in cache ==> q in old(cache) && cache[q] == old(cache)[q]
      ensures |old(cache)| < MAX_CACHED_FILES ==> cache == old(cache)
    {
      while |cache| >= MAX_CACHED_FILES
        invariant forall q :: q in cache ==> q in old(cache) && cache[q] == old(cache)[q]
        invariant |old(cache)| < MAX_CACHED_FILES ==> cache == old(cache)
        decreases |cache|
      {
        assert cache != map[];
        var first := Least(cache.Keys);
        RemovalShrinks(cache, first);
        cache := cache - {first};
      }
    }
  }

  lemma RemovalShrinks(cache: map<Path, Cached>, p: Path)
    requires p in cache
    ensures |cache - {p}| < |cache|
  {
    assert (cache - {p}).Keys == cache.Keys - {p};
    assert |cache.Keys| == |cache|;
  }

  lemma FromTheFirstByte(s: State, b: Bytes, parse: Parser)
    ensures ReadFrom(s, b, 0, parse) == Replay(s, b, parse) && LeftOff(b[0..]) == LeftOff(b)
  {
    assert b[0..] == b;
  }
}
