/**
 The readers of a child process's output. They see the stream in pieces of any size, with interruptions
 between them; what they keep depends on the bytes of the stream only.
 */
module StreamReaders {
  import opened Options
  import opened Lines
  import opened Sequences

  const MAX_ADAPTER_OUTPUT_BYTES := 1024 * 1024
  const MAX_TAIL_LINE_BYTES := 256 * 1024

  datatype Failure = ReadFailed | OutputTooLong

  /** What one system read comes to: at most so many bytes, an interruption, or an error. */
  datatype Fill = Upto(size: nat) | Interrupted | Broken

  datatype Read = Data(bytes: Bytes) | Interrupt | Error

  /** A stream of bytes; script says how the system will deliver it. */
  class Source {
    var rest: Bytes
    var script: seq<Fill>

    constructor (stream: Bytes, script: seq<Fill>)
      ensures rest == stream && this.script == script
    {
      this.rest, this.script := stream, script;
    }

    ghost predicate Healthy()
      reads this`script
    {
      Broken !in script
    }

    /** Some of the bytes that are left, and none only at the end. They stay until they are consumed. */
    method FillBuf() returns (r: Read)
      modifies this`script
      ensures r.Data? ==> r.bytes <= rest && (r.bytes == [] <==> rest == [])
      ensures old(Healthy()) ==> Healthy() && !r.Error?
      ensures |script| <= |old(script)| && (r.Interrupt? ==> |script| < |old(script)|)
    {
      var next := Upto(|rest|);
      if script != [] {
        next := script[0];
        assert script == [script[0]] + script[1..];
        script := script[1..];
      }
      match next {
        case Upto(size) =>
          var n := if size == 0 then 1 else size;
          r := Data(if n < |rest| then rest[..n] else rest);
        case Interrupted => r := Interrupt;
        case Broken => r := Error;
      }
    }

    method Consume(n: nat)
      requires n <= |rest|
      modifies this`rest
      ensures rest == old(rest)[n..]
    {
      rest := rest[n..];
    }
  }

  // ---------------------------------------------------------------- one line, capped

  predicate EndsLine(b: Bytes) {
    b != [] && b[|b| - 1] == NEWLINE
  }

  /** At most `maximum` bytes of a line, and its newline if it has one. */
  function Capped(line: Bytes, maximum: nat): Bytes {
    if EndsLine(line) then First(line[..|line| - 1], maximum) + [NEWLINE] else First(line, maximum)
  }

  /** Reads exactly one line, however it arrives: at most `maximum` bytes of it, with its newline restored. */
  method ReadCappedLine(source: Source, maximum: nat) returns (r: Result<nat, Failure>, line: Bytes)
    modifies source
    ensures old(source.Healthy()) ==> source.Healthy() && r.Ok?
    ensures r.Ok? ==> r.value == |FirstLine(old(source.rest))| && source.rest == old(source.rest)[r.value..]
    ensures r.Ok? ==> line == Capped(FirstLine(old(source.rest)), maximum)
    ensures |source.script| <= |old(source.script)|
  {
    hide LineLength, FirstLine, Capped, First;
    var total := 0;
    line := [];
    ghost var all := source.rest;
    ghost var taken: Bytes := [];
    NothingTaken(maximum);
    while true
      invariant all == taken + source.rest && total == |taken| && LineLength(taken) == 0
      invariant line == First(taken, maximum)
      invariant old(source.Healthy()) ==> source.Healthy()
      invariant |source.script| <= |old(source.script)|
      decreases |source.rest| + |source.script|
    {
      var available := source.FillBuf();
      if available.Interrupt? { continue; }
      if available.Error? { return Err(ReadFailed), line; }
      var bytes := available.bytes;
      if bytes == [] {
        EndOfStream(all, taken, maximum);
        return Ok(total), line;
      }
      var found := LineLength(bytes);
      var length := if found > 0 then found else |bytes|;
      line := KeepPiece(taken, line, bytes[..length], maximum);
      total := total + length;
      ghost var rest := source.rest;
      source.Consume(length);
      Consumed(taken, bytes, rest, length);
      taken := taken + bytes[..length];
      if found > 0 {
        LineIsComplete(all, taken, source.rest, maximum);
        if !EndsLine(line) {
          line := line + [NEWLINE];
        }
        return Ok(total), line;
      }
    }
  }

  /** Adds as much of the piece to the line as there is room for. */
  method KeepPiece(ghost taken: Bytes, line: Bytes, piece: Bytes, maximum: nat) returns (r: Bytes)
    requires line == First(taken, maximum)
    ensures r == First(taken + piece, maximum)
  {
    FirstFillsUp(taken, piece, maximum);
    var room := if maximum > |line| then maximum - |line| else 0;
    r := line + piece[..if |piece| <= room then |piece| else room];
    assert piece[..|piece|] == piece;
  }

  lemma NothingTaken(maximum: nat)
    ensures LineLength([]) == 0 && First<Byte>([], maximum) == []
    ensures forall b: Bytes :: [] + b == b
  {
  }

  lemma EndOfStream(all: Bytes, taken: Bytes, maximum: nat)
    requires all == taken + [] && LineLength(taken) == 0
    ensures FirstLine(all) == taken && all[|taken|..] == []
    ensures Capped(FirstLine(all), maximum) == First(taken, maximum)
  {
    assert all == taken;
    assert taken != [] ==> taken[|taken| - 1] in taken;
  }

  lemma Consumed(taken: Bytes, bytes: Bytes, rest: Bytes, length: nat)
    requires bytes <= rest && LineLength(taken) == 0
    requires length == if LineLength(bytes) > 0 then LineLength(bytes) else |bytes|
    ensures taken + rest == taken + bytes[..length] + rest[length..]
    ensures LineLength(bytes) == 0 ==> LineLength(taken + bytes[..length]) == 0
    ensures LineLength(bytes) > 0 ==> LineLength(taken + bytes[..length]) == |taken + bytes[..length]|
  {
    hide LineLength;
    assert bytes[..length] == rest[..length];
    if LineLength(bytes) > 0 {
      OneLine(bytes);
    } else {
      assert bytes[..length] == bytes;
    }
    FirstLineOfBoth(taken, bytes[..length]);
  }

  /** The newline has come: what was taken is the first line, and its cap is what was kept with a newline. */
  lemma LineIsComplete(all: Bytes, line: Bytes, rest: Bytes, maximum: nat)
    requires all == line + rest && LineLength(line) == |line| > 0
    ensures FirstLine(all) == line && all[|line|..] == rest
    ensures Capped(line, maximum) == if EndsLine(First(line, maximum)) then First(line, maximum) else First(line, maximum) + [NEWLINE]
  {
    hide LineLength, First;
    FirstLineOfBoth(line, rest);
    LastByteEnds(line);
    CapOfALine(line[..|line| - 1], maximum);
  }

  lemma LastByteEnds(line: Bytes)
    requires LineLength(line) == |line| > 0
    ensures EndsLine(line) && line == line[..|line| - 1] + [NEWLINE] && NEWLINE !in line[..|line| - 1]
  {
  }

  lemma CapOfALine(body: Bytes, maximum: nat)
    requires NEWLINE !in body
    ensures var kept := First(body + [NEWLINE], maximum);
            First(body, maximum) + [NEWLINE] == if EndsLine(kept) then kept else kept + [NEWLINE]
  {
    var kept := First(body + [NEWLINE], maximum);
    if |body| < maximum {
      assert kept == body + [NEWLINE];
    } else {
      assert kept == First(body, maximum);
      assert kept != [] ==> kept[|kept| - 1] in body;
    }
  }

  // ---------------------------------------------------------------- the newest lines

  function CapAll(lines: seq<Bytes>, maximum: nat): (r: seq<Bytes>)
    ensures |r| == |lines| && forall i :: 0 <= i < |lines| ==> r[i] == Capped(lines[i], maximum)
  {
    if lines == [] then [] else [Capped(lines[0], maximum)] + CapAll(lines[1..], maximum)
  }

  function Size(lines: seq<Bytes>): nat {
    if lines == [] then 0 else |lines[0]| + Size(lines[1..])
  }

  lemma {:induction false} SizeOfBoth(a: seq<Bytes>, b: seq<Bytes>)
    ensures Size(a + b) == Size(a) + Size(b)
  {
    if a == [] {
      assert a + b == b;
    } else {
      assert (a + b)[1..] == a[1..] + b;
      SizeOfBoth(a[1..], b);
    }
  }

  lemma {:induction false} FlatHasItsSize(lines: seq<Bytes>)
    ensures |Flat(lines)| == Size(lines)
  {
    if lines != [] { FlatHasItsSize(lines[1..]); }
  }

  /** Of dropped + kept, kept is the longest run of newest lines that together stay within the limit. */
  ghost predicate NewestWithin(dropped: seq<Bytes>, kept: seq<Bytes>, limit: nat) {
    Size(kept) <= limit && (dropped != [] ==> |dropped[|dropped| - 1]| + Size(kept) > limit)
  }

  /** One more line, and as many of the oldest ones dropped as the limit demands. */
  method PushLine(ghost dropped: seq<Bytes>, kept: seq<Bytes>, bytes: nat, line: Bytes, limit: nat)
    returns (ghost dropped': seq<Bytes>, kept': seq<Bytes>, bytes': nat)
    requires NewestWithin(dropped, kept, limit) && bytes == Size(kept) && |line| <= limit
    ensures dropped' + kept' == dropped + kept + [line]
    ensures NewestWithin(dropped', kept', limit) && bytes' == Size(kept')
    ensures kept' != [] && kept'[|kept'| - 1] == line
  {
    dropped', kept', bytes' := dropped, kept + [line], bytes + |line|;
    SizeOfBoth(kept, [line]);
    OneLineSize(line);
    while bytes' > limit
      invariant dropped' + kept' == dropped + kept + [line] && bytes' == Size(kept')
      invariant kept' != [] && kept'[|kept'| - 1] == line
      invariant dropped' != [] ==> |dropped'[|dropped'| - 1]| + Size(kept') > limit
      decreases |kept'|
    {
      var oldest := kept'[0];
      assert kept' == [oldest] + kept'[1..];
      assert dropped' + kept' == (dropped' + [oldest]) + kept'[1..];
      dropped' := dropped' + [oldest];
      kept' := kept'[1..];
      bytes' := bytes' - |oldest|;
    }
  }

  lemma OneLineSize(line: Bytes)
    ensures Size([line]) == |line|
  {
    assert [line][1..] == [];
  }

  /**
   Reads the stream to its end line by line. What is kept is the longest run of newest capped lines
   within the limit, whatever the pieces in which the stream arrives, and the last line is always among them.
   The observer gets every capped line until it hangs up after `accepts` lines.
   */
  method ReadTailLines(source: Source, accepts: nat)
    returns (r: Result<Bytes, Failure>, kept: seq<Bytes>, sent: seq<Bytes>, ghost dropped: seq<Bytes>)
    modifies source
    ensures old(source.Healthy()) ==> r.Ok?
    ensures r.Ok? ==>
              var lines := CapAll(AllLines(old(source.rest)), MAX_TAIL_LINE_BYTES);
              && lines == dropped + kept && NewestWithin(dropped, kept, MAX_ADAPTER_OUTPUT_BYTES)
              && r.value == Flat(kept) && |r.value| <= MAX_ADAPTER_OUTPUT_BYTES
              && (lines != [] ==> kept != [] && kept[|kept| - 1] == lines[|lines| - 1])
              && sent == First(lines, accepts)
  {
    hide FirstLine, LineLength, Capped, NewestWithin, First, AllLines, CapAll;
    ghost var all := source.rest;
    kept, sent, dropped := [], [], [];
    var bytes, open := 0, true;
    NoLinesYet(all, accepts);
    while true
      invariant dropped + kept + CapAll(AllLines(source.rest), MAX_TAIL_LINE_BYTES) == CapAll(AllLines(all), MAX_TAIL_LINE_BYTES)
      invariant NewestWithin(dropped, kept, MAX_ADAPTER_OUTPUT_BYTES) && bytes == Size(kept)
      invariant dropped != [] ==> kept != []
      invariant sent == First(dropped + kept, accepts) && (!open ==> accepts < |dropped + kept|)
      invariant old(source.Healthy()) ==> source.Healthy()
      decreases |source.rest|
    {
      ghost var left, lines := source.rest, dropped + kept;
      var total, line := ReadCappedLine(source, MAX_TAIL_LINE_BYTES);
      if total.Err? { return Err(total.error), kept, sent, dropped; }
      if total.value == 0 {
        StreamIsOver(left, lines);
        FlatHasItsSize(kept);
        KeptFits(dropped, kept);
        return Ok(Flat(kept)), kept, sent, dropped;
      }
      OneMoreLine(left, lines);
      SendOneMore(lines, line, accepts);
      if open {
        if |sent| < accepts { sent := sent + [line]; } else { open := false; }
      }
      CappedIsShort(FirstLine(left), MAX_TAIL_LINE_BYTES);
      dropped, kept, bytes := PushLine(dropped, kept, bytes, line, MAX_ADAPTER_OUTPUT_BYTES);
      assert dropped + kept == lines + [line];
    }
  }

  lemma SendOneMore(lines: seq<Bytes>, line: Bytes, accepts: nat)
    ensures First(lines + [line], accepts) == if |First(lines, accepts)| < accepts then First(lines, accepts) + [line] else First(lines, accepts)
    ensures |First(lines, accepts)| == if |lines| < accepts then |lines| else accepts
  {
  }

  lemma StreamIsOver(left: Bytes, lines: seq<Bytes>)
    requires |FirstLine(left)| == 0
    ensures lines + CapAll(AllLines(left), MAX_TAIL_LINE_BYTES) == lines
  {
    assert left == [];
  }

  lemma NoLinesYet(all: Bytes, accepts: nat)
    ensures NewestWithin([], [], MAX_ADAPTER_OUTPUT_BYTES)
    ensures [] + [] + CapAll(AllLines(all), MAX_TAIL_LINE_BYTES) == CapAll(AllLines(all), MAX_TAIL_LINE_BYTES)
    ensures First<Bytes>([], accepts) == []
  {
  }

  lemma KeptFits(dropped: seq<Bytes>, kept: seq<Bytes>)
    requires NewestWithin(dropped, kept, MAX_ADAPTER_OUTPUT_BYTES)
    ensures Size(kept) <= MAX_ADAPTER_OUTPUT_BYTES
  {
  }

  lemma OneMoreLine(left: Bytes, lines: seq<Bytes>)
    requires left != []
    ensures lines + CapAll(AllLines(left), MAX_TAIL_LINE_BYTES)
            == lines + [Capped(FirstLine(left), MAX_TAIL_LINE_BYTES)] + CapAll(AllLines(left[|FirstLine(left)|..]), MAX_TAIL_LINE_BYTES)
  {
    hide FirstLine, Capped;
    assert AllLines(left)[1..] == AllLines(left[|FirstLine(left)|..]);
  }

  lemma CappedIsShort(line: Bytes, maximum: nat)
    ensures |Capped(line, maximum)| <= maximum + 1
  {
  }

  // ---------------------------------------------------------------- the newest bytes

  /** Keeps exactly the last bytes of the stream, up to the limit. */
  method ReadTail(source: Source) returns (r: Result<Bytes, Failure>)
    modifies source
    ensures old(source.Healthy()) ==> r.Ok?
    ensures r.Ok? ==> r.value == Last(old(source.rest), MAX_ADAPTER_OUTPUT_BYTES)
  {
    hide Last;
    var kept: Bytes := [];
    ghost var all, taken: Bytes := source.rest, [];
    assert all == taken + source.rest;
    assert kept == Last(taken, MAX_ADAPTER_OUTPUT_BYTES) by { LastOfNothing(MAX_ADAPTER_OUTPUT_BYTES); }
    while true
      invariant all == taken + source.rest && kept == Last(taken, MAX_ADAPTER_OUTPUT_BYTES)
      invariant old(source.Healthy()) ==> source.Healthy()
      decreases |source.rest| + |source.script|
    {
      var read := source.FillBuf();
      match read {
        case Error => return Err(ReadFailed);
        case Interrupt =>
        case Data(bytes) =>
          if bytes == [] {
            assert all == taken;
            return Ok(kept);
          }
          ghost var rest := source.rest;
          source.Consume(|bytes|);
          assert rest == bytes + source.rest;
          assert taken + (bytes + source.rest) == taken + bytes + source.rest;
          LastOfLast(taken, bytes, MAX_ADAPTER_OUTPUT_BYTES);
          kept := kept + bytes;
          var excess := if |kept| > MAX_ADAPTER_OUTPUT_BYTES then |kept| - MAX_ADAPTER_OUTPUT_BYTES else 0;
          DropsTheOldest(kept, excess, MAX_ADAPTER_OUTPUT_BYTES);
          kept := kept[excess..];
          taken := taken + bytes;
      }
    }
  }

  lemma LastOfNothing(n: nat)
    ensures Last<Byte>([], n) == []
  {
  }

  lemma DropsTheOldest(kept: Bytes, excess: nat, n: nat)
    requires excess == if |kept| > n then |kept| - n else 0
    ensures kept[excess..] == Last(kept, n)
  {
  }

  // ---------------------------------------------------------------- everything, or nothing

  /** sent is the longest run of first lines that together stay within the limit. */
  ghost predicate FittingLines(lines: seq<Bytes>, sent: seq<Bytes>, limit: nat) {
    sent <= lines && Size(sent) <= limit && (|sent| < |lines| ==> Size(sent) + |lines[|sent|]| > limit)
  }

  /** Reads one line of a stream that is cut off after `room` bytes, however it arrives. */
  method ReadLine(source: Source, room: nat) returns (r: Result<Bytes, Failure>)
    modifies source
    ensures old(source.Healthy()) ==> source.Healthy() && r.Ok?
    ensures r.Err? ==> r.error == ReadFailed
    ensures r.Ok? ==> r.value == FirstLine(First(old(source.rest), room)) && source.rest == old(source.rest)[|r.value|..]
  {
    hide LineLength, FirstLine, First;
    var line: Bytes := [];
    ghost var all := source.rest;
    NothingTaken(room);
    while |line| < room
      invariant all == line + source.rest && |line| <= room && LineLength(line) == 0
      invariant old(source.Healthy()) ==> source.Healthy()
      decreases |source.rest| + |source.script|
    {
      var available := source.FillBuf();
      if available.Interrupt? { continue; }
      if available.Error? { return Err(ReadFailed); }
      var bytes := First(available.bytes, room - |line|);
      PieceOfTheStream(available.bytes, source.rest, room - |line|);
      if bytes == [] {
        CutEnds(all, line, source.rest, room);
        return Ok(line);
      }
      var found := LineLength(bytes);
      var length := if found > 0 then found else |bytes|;
      ghost var rest := source.rest;
      source.Consume(length);
      Consumed(line, bytes, rest, length);
      line := line + bytes[..length];
      if found > 0 {
        CutLineIsComplete(all, line, source.rest, room);
        return Ok(line);
      }
    }
    CutEnds(all, line, source.rest, room);
    r := Ok(line);
  }

  lemma PieceOfTheStream(bytes: Bytes, rest: Bytes, n: nat)
    requires bytes <= rest && (bytes == [] <==> rest == []) && n > 0
    ensures First(bytes, n) <= rest && |First(bytes, n)| <= n && (First(bytes, n) == [] <==> rest == [])
  {
  }

  lemma CutEnds(all: Bytes, line: Bytes, rest: Bytes, room: nat)
    requires all == line + rest && LineLength(line) == 0 && |line| <= room && (rest == [] || |line| == room)
    ensures line == FirstLine(First(all, room)) && rest == all[|line|..]
  {
    assert First(all, room) == line;
    assert line != [] ==> line[|line| - 1] in line;
  }

  lemma CutLineIsComplete(all: Bytes, line: Bytes, rest: Bytes, room: nat)
    requires all == line + rest && LineLength(line) == |line| > 0 && |line| <= room
    ensures line == FirstLine(First(all, room)) && rest == all[|line|..]
  {
    hide LineLength;
    var more := First(rest, room - |line|);
    assert First(all, room) == line + more;
    FirstLineOfBoth(line, more);
  }

  /** Where the bounded reader is: the lines sent so far are the first ones of the stream, and all that it has kept. */
  ghost predicate SentSoFar(stream: Bytes, output: Bytes, sent: seq<Bytes>) {
    && output <= stream && sent + AllLines(stream[|output|..]) == AllLines(stream)
    && |output| == Size(sent) <= MAX_ADAPTER_OUTPUT_BYTES && output == Flat(sent)
  }

  /** What the reader leaves behind: a result, or nothing at all if its observer hung up. */
  ghost predicate BoundedRight(stream: Bytes, r: Option<Result<Bytes, Failure>>, sent: seq<Bytes>, accepts: nat) {
    var lines := AllLines(stream);
    match r
    case None => |sent| == accepts < |lines| && sent <= lines && Size(sent) + |lines[accepts]| <= MAX_ADAPTER_OUTPUT_BYTES
    case Some(Ok(output)) => output == stream && sent == lines && |stream| <= MAX_ADAPTER_OUTPUT_BYTES
    case Some(Err(OutputTooLong)) => FittingLines(lines, sent, MAX_ADAPTER_OUTPUT_BYTES) && |stream| > MAX_ADAPTER_OUTPUT_BYTES
    case Some(Err(ReadFailed)) => sent <= lines && Size(sent) <= MAX_ADAPTER_OUTPUT_BYTES
  }

  /**
   The bounded reader looks at one byte more than it may keep. It returns the whole stream if that fits; its
   observer, which hangs up after `accepts` lines, gets whole lines of the stream in order, as many as fit.
   */
  method ReadBoundedLines(source: Source, accepts: nat) returns (r: Option<Result<Bytes, Failure>>, sent: seq<Bytes>)
    modifies source
    ensures BoundedRight(old(source.rest), r, sent, accepts) && |sent| <= accepts
    ensures old(source.Healthy()) ==> r != Some(Err(ReadFailed))
  {
    hide FirstLine, LineLength, FittingLines, AllLines, First, Flat, BoundedRight, SentSoFar;
    ghost var stream := source.rest;
    var output: Bytes := [];
    sent := [];
    BoundedBegins(stream);
    while true
      invariant SentSoFar(stream, output, sent) && |sent| <= accepts && |output| <= MAX_ADAPTER_OUTPUT_BYTES
      invariant output <= stream && source.rest == stream[|output|..]
      invariant old(source.Healthy()) ==> source.Healthy()
      decreases |source.rest|
    {
      ghost var left := First(source.rest, MAX_ADAPTER_OUTPUT_BYTES + 1 - |output|);
      CutTheSame(stream, output);
      var read := ReadLine(source, MAX_ADAPTER_OUTPUT_BYTES + 1 - |output|);
      if read.Err? {
        ReadingFailed(stream, output, sent, accepts);
        return Some(Err(ReadFailed)), sent;
      }
      var line := read.value;
      if |line| == 0 {
        BoundedEnds(stream, output, sent, left, accepts);
        return Some(Ok(output)), sent;
      }
      if |output| + |line| > MAX_ADAPTER_OUTPUT_BYTES {
        TooLong(stream, output, sent, left, accepts);
        return Some(Err(OutputTooLong)), sent;
      }
      SameLine(stream, output, sent, left);
      output := output + line;
      if |sent| >= accepts {
        HungUp(stream, sent, line, accepts);
        return None, sent;
      }
      sent := sent + [line];
    }
  }

  lemma CutTheSame(stream: Bytes, output: Bytes)
    requires output <= stream && |output| <= MAX_ADAPTER_OUTPUT_BYTES
    ensures First(stream, MAX_ADAPTER_OUTPUT_BYTES + 1) == output + First(stream[|output|..], MAX_ADAPTER_OUTPUT_BYTES + 1 - |output|)
  {
  }

  lemma ReadingFailed(stream: Bytes, output: Bytes, sent: seq<Bytes>, accepts: nat)
    requires SentSoFar(stream, output, sent)
    ensures BoundedRight(stream, Some(Err(ReadFailed)), sent, accepts)
  {
  }

  lemma HungUp(stream: Bytes, sent: seq<Bytes>, line: Bytes, accepts: nat)
    requires exists output :: SentSoFar(stream, output, sent + [line])
    requires |sent| == accepts
    ensures BoundedRight(stream, None, sent, accepts)
  {
    var output :| SentSoFar(stream, output, sent + [line]);
    SizeOfBoth(sent, [line]);
    OneLineSize(line);
    var lines := AllLines(stream);
    assert lines[accepts] == (sent + [line])[accepts];
  }

  lemma OneLineFlat(line: Bytes)
    ensures Flat([line]) == line
  {
    assert [line][1..] == [];
    assert line + [] == line;
  }

  lemma BoundedBegins(stream: Bytes)
    ensures SentSoFar(stream, [], []) && stream[0..] == stream
  {
  }

  lemma BoundedEnds(stream: Bytes, output: Bytes, sent: seq<Bytes>, left: Bytes, accepts: nat)
    requires First(stream, MAX_ADAPTER_OUTPUT_BYTES + 1) == output + left && |FirstLine(left)| == 0
    requires SentSoFar(stream, output, sent)
    ensures BoundedRight(stream, Some(Ok(output)), sent, accepts)
  {
    assert left == [];
    assert output + left == output;
    assert stream[|output|..] == [];
    assert sent + [] == sent;
  }

  /** What follows the lines sent so far: the rest of what the bounded reader sees, then what it does not see. */
  lemma Unseen(stream: Bytes, output: Bytes, left: Bytes)
    requires First(stream, MAX_ADAPTER_OUTPUT_BYTES + 1) == output + left
    ensures output <= stream
    ensures stream[|output|..] == left + stream[|output + left|..]
    ensures |stream| > |output + left| ==> |output + left| == MAX_ADAPTER_OUTPUT_BYTES + 1
  {
    assert stream == First(stream, MAX_ADAPTER_OUTPUT_BYTES + 1) + stream[|First(stream, MAX_ADAPTER_OUTPUT_BYTES + 1)|..];
  }

  lemma FirstLineOnward(left: Bytes, more: Bytes)
    requires left != []
    ensures |FirstLine(left)| < |left| ==> FirstLine(left + more) == FirstLine(left)
    ensures more == [] ==> FirstLine(left + more) == FirstLine(left)
    ensures |FirstLine(left + more)| >= |FirstLine(left)|
  {
    FirstLineOfBoth(left, more);
    assert more == [] ==> left + more == left;
  }

  lemma NextLine(rest: Bytes)
    requires rest != []
    ensures AllLines(rest) == [FirstLine(rest)] + AllLines(rest[|FirstLine(rest)|..])
  {
  }

  /** Within the limit, the line that the bounded reader sees is the next line of the stream. */
  lemma SameLine(stream: Bytes, output: Bytes, sent: seq<Bytes>, left: Bytes)
    requires First(stream, MAX_ADAPTER_OUTPUT_BYTES + 1) == output + left && |FirstLine(left)| > 0
    requires |output| + |FirstLine(left)| <= MAX_ADAPTER_OUTPUT_BYTES
    requires SentSoFar(stream, output, sent)
    ensures SentSoFar(stream, output + FirstLine(left), sent + [FirstLine(left)])
    ensures output + FirstLine(left) <= stream
    ensures stream[|output|..][|FirstLine(left)|..] == stream[|output + FirstLine(left)|..]
  {
    hide FirstLine, First, AllLines, Flat, Size;
    Unseen(stream, output, left);
    var line, rest := FirstLine(left), stream[|output|..];
    FirstLineOnward(left, stream[|output + left|..]);
    assert FirstLine(rest) == line;
    NextLine(rest);
    assert left == line + left[|line|..];
    assert rest[|line|..] == stream[|output + line|..];
    assert output + left == output + line + left[|line|..];
    Unseen(stream, output + line, left[|line|..]);
    SizeOfBoth(sent, [line]);
    FlatOfBoth(sent, [line]);
    OneLineSize(line);
    OneLineFlat(line);
    assert sent + ([line] + AllLines(rest[|line|..])) == sent + [line] + AllLines(rest[|line|..]);
  }

  lemma TooLong(stream: Bytes, output: Bytes, sent: seq<Bytes>, left: Bytes, accepts: nat)
    requires First(stream, MAX_ADAPTER_OUTPUT_BYTES + 1) == output + left && left != []
    requires SentSoFar(stream, output, sent) && |output| + |FirstLine(left)| > MAX_ADAPTER_OUTPUT_BYTES
    ensures BoundedRight(stream, Some(Err(OutputTooLong)), sent, accepts)
  {
    hide FirstLine, First, AllLines;
    Unseen(stream, output, left);
    var rest := stream[|output|..];
    FirstLineOnward(left, stream[|output + left|..]);
    NextLine(rest);
    var lines := AllLines(stream);
    assert lines[|sent|] == FirstLine(rest);
  }

  // ---------------------------------------------------------------- text within a byte limit

  /** The bytes of a character in UTF-8. */
  function Width(c: char): nat {
    if c < '\U{80}' then 1 else if c < '\U{800}' then 2 else if c < '\U{10000}' then 3 else 4
  }

  function ByteLength(text: string): nat {
    if text == "" then 0 else Width(text[0]) + ByteLength(text[1..])
  }

  /** The number of characters before a byte offset, if the offset is between two characters. */
  function Boundary(text: string, offset: nat): (n: Option<nat>)
    ensures n.Some? ==> n.value <= |text| && ByteLength(text[..n.value]) == offset
    ensures n.None? ==> forall k :: 0 <= k <= |text| ==> ByteLength(text[..k]) != offset
  {
    if offset == 0 then
      BoundaryAtZero(text);
      Some(0)
    else if text == "" then None
    else if offset < Width(text[0]) then
      LongerPrefixes(text);
      None
    else
      var n := Boundary(text[1..], offset - Width(text[0]));
      PrefixesOneOn(text);
      if n.None? then None else Some(n.value + 1)
  }

  lemma BoundaryAtZero(text: string)
    ensures text[..0] == "" && ByteLength(text[..0]) == 0
  {
  }

  lemma PrefixesOneOn(text: string)
    requires text != ""
    ensures forall k :: 0 < k <= |text| ==> ByteLength(text[..k]) == Width(text[0]) + ByteLength(text[1..][..k - 1])
    ensures ByteLength(text[..0]) == 0
  {
    forall k | 0 < k <= |text| ensures ByteLength(text[..k]) == Width(text[0]) + ByteLength(text[1..][..k - 1]) {
      assert text[..k][1..] == text[1..][..k - 1];
    }
  }

  lemma LongerPrefixes(text: string)
    requires text != ""
    ensures forall k :: 0 <= k <= |text| ==> ByteLength(text[..k]) == 0 || ByteLength(text[..k]) >= Width(text[0])
  {
    PrefixesOneOn(text);
  }

  lemma {:induction false} PrefixGrows(text: string, a: nat, b: nat)
    requires a < b <= |text|
    ensures ByteLength(text[..a]) < ByteLength(text[..b])
  {
    PrefixesOneOn(text);
    if a > 0 { PrefixGrows(text[1..], a - 1, b - 1); }
  }

  /** The longest prefix of whole characters that fits. */
  method BoundUtf8(text: string, maximum: nat) returns (r: string)
    ensures r <= text && ByteLength(r) <= maximum
    ensures |r| < |text| ==> ByteLength(text[..|r| + 1]) > maximum
  {
    if ByteLength(text) <= maximum { return text; }
    var boundary := maximum;
    while Boundary(text, boundary).None?
      invariant 0 <= boundary <= maximum
      invariant forall k :: 0 <= k <= |text| && ByteLength(text[..k]) <= maximum ==> ByteLength(text[..k]) <= boundary
      decreases boundary
    {
      BoundaryAtZero(text);
      boundary := boundary - 1;
    }
    var n := Boundary(text, boundary).value;
    r := text[..n];
    if n < |text| { PrefixGrows(text, n, n + 1); }
  }
}
