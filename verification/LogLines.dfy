/**
 Splitting a container's log stream into lines, chunk by chunk, into the function's ring of recent
 lines.  Chunks are decoded text; a record is a stream and a line.
 */
module LogLines {

  datatype LogStream = Stdout | Stderr

  datatype Record = Record(stream: LogStream, line: string)

  // ---------- Lines of a text ----------

  // The non-empty lines of `text` that end with a newline, and what follows the last newline.
  datatype Parts = Parts(lines: seq<string>, rest: string)

  function AddChar(p: Parts, c: char): Parts {
    if c != '\n' then Parts(p.lines, p.rest + [c])
    else if p.rest == "" then p
    else Parts(p.lines + [p.rest], "")
  }

  // Read character by character: the definition the splitting in chunks is measured by.
  function PartsOf(text: string): Parts {
    if text == "" then Parts([], "") else AddChar(PartsOf(text[..|text| - 1]), text[|text| - 1])
  }

  predicate OneLine(s: string) {
    '\n' !in s
  }

  lemma {:induction false} PartsShape(text: string)
    ensures OneLine(PartsOf(text).rest)
    ensures forall line <- PartsOf(text).lines :: line != "" && OneLine(line)
  {
    if text != "" {
      PartsShape(text[..|text| - 1]);
    }
  }

  // Without a newline in it, a text only adds to the rest.
  lemma {:induction false} PartsUnfinished(a: string, b: string)
    requires OneLine(b)
    ensures PartsOf(a + b) == Parts(PartsOf(a).lines, PartsOf(a).rest + b)
    decreases |b|
  {
    if b == "" {
      assert a + b == a;
      assert PartsOf(a).rest + b == PartsOf(a).rest;
    } else {
      var init, last := b[..|b| - 1], b[|b| - 1];
      assert (a + b)[..|a + b| - 1] == a + init && (a + b)[|a + b| - 1] == last;
      assert b == init + [last] && last in b;
      PartsUnfinished(a, init);
      assert PartsOf(a).rest + init + [last] == PartsOf(a).rest + b;
    }
  }

  // The rest carries everything that matters of a text to what follows.
  lemma {:induction false} PartsContinue(a: string, b: string)
    ensures PartsOf(a + b).lines == PartsOf(a).lines + PartsOf(PartsOf(a).rest + b).lines
    ensures PartsOf(a + b).rest == PartsOf(PartsOf(a).rest + b).rest
    decreases |b|
  {
    var rest := PartsOf(a).rest;
    if b == "" {
      assert a + b == a && rest + b == rest;
      PartsShape(a);
      PartsUnfinished("", rest);
      assert "" + rest == rest;
    } else {
      var init, last := b[..|b| - 1], b[|b| - 1];
      assert (a + b)[..|a + b| - 1] == a + init && (rest + b)[..|rest + b| - 1] == rest + init;
      PartsContinue(a, init);
    }
  }

  // ---------- Feeding chunks ----------

  function TextOf(chunks: seq<(LogStream, string)>, stream: LogStream): string {
    if chunks == [] then ""
    else
      TextOf(chunks[..|chunks| - 1], stream)
      + if chunks[|chunks| - 1].0 == stream then chunks[|chunks| - 1].1 else ""
  }

  function LinesOf(records: seq<Record>, stream: LogStream): seq<string> {
    if records == [] then []
    else
      LinesOf(records[..|records| - 1], stream)
      + if records[|records| - 1].stream == stream then [records[|records| - 1].line] else []
  }

  function Tagged(lines: seq<string>, stream: LogStream): seq<Record> {
    if lines == [] then []
    else Tagged(lines[..|lines| - 1], stream) + [Record(stream, lines[|lines| - 1])]
  }

  lemma {:induction false} LinesOfConcat(xs: seq<Record>, ys: seq<Record>, stream: LogStream)
    ensures LinesOf(xs + ys, stream) == LinesOf(xs, stream) + LinesOf(ys, stream)
    decreases ys
  {
    if ys == [] {
      assert xs + ys == xs;
    } else {
      var init, last := ys[..|ys| - 1], ys[|ys| - 1];
      LinesOfConcat(xs, init, stream);
      assert xs + ys == xs + init + [last];
      LinesOfSnoc(xs + init, last, stream);
    }
  }

  lemma {:induction false} LinesOfTagged(lines: seq<string>, tag: LogStream, stream: LogStream)
    ensures LinesOf(Tagged(lines, tag), stream) == if tag == stream then lines else []
    decreases lines
  {
    if lines != [] {
      var init, last := lines[..|lines| - 1], lines[|lines| - 1];
      LinesOfTagged(init, tag, stream);
      LinesOfSnoc(Tagged(init, tag), Record(tag, last), stream);
    }
  }

  lemma TaggedSnoc(lines: seq<string>, line: string, stream: LogStream)
    ensures Tagged(lines + [line], stream) == Tagged(lines, stream) + [Record(stream, line)]
  {
    assert (lines + [line])[..|lines|] == lines;
  }

  lemma TaggedOne(lines: seq<string>, line: string, stream: LogStream)
    ensures Tagged([line], stream) == [Record(stream, line)]
    ensures Tagged(lines + [line], stream) == Tagged(lines, stream) + Tagged([line], stream)
  {
    TaggedSnoc([], line, stream);
    TaggedSnoc(lines, line, stream);
    assert [] + [line] == [line];
  }

  lemma LinesOfSnoc(records: seq<Record>, r: Record, stream: LogStream)
    ensures LinesOf(records + [r], stream) == LinesOf(records, stream) + if r.stream == stream then [r.line] else []
  {
    assert (records + [r])[..|records|] == records;
  }

  // ---------- The ring ----------

  function Max(a: nat, b: nat): nat {
    if a >= b then a else b
  }

  function Last<T>(history: seq<T>, n: nat): seq<T> {
    if n < |history| then history[|history| - n..] else history
  }

  class LogRingBuffer {
    const capacity: nat
    var lines: seq<Record>
    ghost var history: seq<Record>

    // The ring holds the last `capacity` records ever pushed.
    ghost predicate Valid()
      reads this
    {
      capacity >= 1 && lines == Last(history, capacity)
    }

    constructor (capacity: nat)
      ensures Valid() && history == [] && lines == []
      ensures this.capacity == if capacity == 0 then 1 else capacity
    {
      this.capacity := Max(capacity, 1);
      lines, history := [], [];
    }

    method Push(record: Record)
      requires Valid()
      modifies this
      ensures Valid() && history == old(history) + [record]
      ensures lines == if |old(lines)| < capacity then old(lines) + [record] else old(lines)[1..] + [record]
    {
      if |lines| >= capacity {
        lines := lines[1..];
      }
      lines := lines + [record];
      history := history + [record];
    }

    method Tail(n: nat) returns (list: seq<Record>)
      requires Valid()
      ensures |list| <= n && |list| <= capacity && |list| <= |history|
      ensures |list| == n || |list| == capacity || |list| == |history|
      ensures list == history[|history| - |list|..]
    {
      var len := |lines|;
      var skip := if len >= n then len - n else 0;
      list := lines[skip..];
    }
  }

  // ---------- Feeding a chunk ----------

  // Takes one line, without its newlines, off the front of the buffer.
  method DrainLine(buf: string, pos: nat) returns (line: string, rest: string)
    requires pos < |buf| && buf[pos] == '\n' && OneLine(buf[..pos])
    ensures line == buf[..pos] && rest == buf[pos + 1..]
  {
    line := buf[..pos + 1];
    rest := buf[pos + 1..];
    while line != "" && line[|line| - 1] == '\n'
      invariant |line| <= pos + 1 && line == buf[..|line|] && |line| >= pos
      decreases |line|
    {
      line := line[..|line| - 1];
    }
  }

  method FindNewline(buf: string) returns (found: bool, pos: nat)
    ensures found <==> !OneLine(buf)
    ensures found ==> pos < |buf| && buf[pos] == '\n' && OneLine(buf[..pos])
  {
    pos := 0;
    while pos < |buf|
      invariant 0 <= pos <= |buf| && OneLine(buf[..pos])
    {
      if buf[pos] == '\n' {
        return true, pos;
      }
      assert buf[..pos + 1] == buf[..pos] + [buf[pos]];
      pos := pos + 1;
    }
    assert buf[..pos] == buf;
    found := false;
  }

  lemma PartsOfLine(line: string)
    requires OneLine(line)
    ensures PartsOf(line + "\n") == Parts(if line == "" then [] else [line], "")
  {
    PartsUnfinished("", line);
    assert "" + line == line;
    assert (line + "\n")[..|line|] == line;
  }

  // What taking a line off the front of a buffer means for its parts.
  lemma PartsDrain(buf: string, pos: nat)
    requires pos < |buf| && buf[pos] == '\n' && OneLine(buf[..pos])
    ensures PartsOf(buf).lines == (if pos == 0 then [] else [buf[..pos]]) + PartsOf(buf[pos + 1..]).lines
    ensures PartsOf(buf).rest == PartsOf(buf[pos + 1..]).rest
  {
    CutAtNewline(buf, pos);
    PartsOfLine(buf[..pos]);
    LineThenRest(buf[..pos], buf[pos + 1..]);
  }

  lemma CutAtNewline(buf: string, pos: nat)
    requires pos < |buf| && buf[pos] == '\n'
    ensures buf == buf[..pos] + "\n" + buf[pos + 1..]
    ensures buf[..pos] == "" <==> pos == 0
  {
  }

  lemma LineThenRest(line: string, rest: string)
    requires PartsOf(line + "\n").rest == ""
    ensures PartsOf(line + "\n" + rest).lines == PartsOf(line + "\n").lines + PartsOf(rest).lines
    ensures PartsOf(line + "\n" + rest).rest == PartsOf(rest).rest
  {
    PartsContinue(line + "\n", rest);
    assert "" + rest == rest;
  }

  // `done` lines were taken off `all`, which leaves `buf`.
  ghost predicate Draining(all: Parts, done: seq<string>, buf: string) {
    all.lines == done + PartsOf(buf).lines && all.rest == PartsOf(buf).rest
  }

  lemma DrainsLine(all: Parts, done: seq<string>, buf: string, pos: nat)
    requires Draining(all, done, buf) && pos < |buf| && buf[pos] == '\n' && OneLine(buf[..pos])
    ensures Draining(all, if pos == 0 then done else done + [buf[..pos]], buf[pos + 1..])
  {
    PartsDrain(buf, pos);
  }

  lemma Drained(all: Parts, done: seq<string>, buf: string)
    requires Draining(all, done, buf) && OneLine(buf)
    ensures all == Parts(done, buf)
  {
    PartsUnfinished("", buf);
    assert "" + buf == buf;
  }

  // One line goes from the front of the buffer to the ring, unless it is empty.
  method FeedLine(
    buf: string, pos: nat, stream: LogStream, ring: LogRingBuffer, ghost all: Parts, ghost done: seq<string>)
    returns (rest: string, ghost more: seq<string>)
    requires ring.Valid() && Draining(all, done, buf)
    requires pos < |buf| && buf[pos] == '\n' && OneLine(buf[..pos])
    modifies ring
    ensures ring.Valid() && |rest| < |buf| && Draining(all, done + more, rest)
    ensures ring.history == old(ring.history) + Tagged(more, stream)
    ensures Tagged(done + more, stream) == Tagged(done, stream) + Tagged(more, stream)
  {
    DrainsLine(all, done, buf, pos);
    var line;
    line, rest := DrainLine(buf, pos);
    more := [];
    assert done + more == done;
    if line != "" {
      ring.Push(Record(stream, line));
      more := [line];
      TaggedOne(done, line, stream);
    }
  }

  lemma DrainsNothing(buf: string)
    ensures Draining(PartsOf(buf), [], buf)
  {
  }

  // Every complete line of the buffer goes to the ring.
  method FeedAll(buf: string, stream: LogStream, ring: LogRingBuffer, ghost all: Parts)
    returns (rest: string, ghost done: seq<string>)
    requires ring.Valid() && Draining(all, [], buf)
    modifies ring
    ensures ring.Valid() && all == Parts(done, rest)
    ensures ring.history == old(ring.history) + Tagged(done, stream)
  {
    rest, done := buf, [];
    var found: bool, pos: nat := FindNewline(rest);
    while found
      invariant ring.Valid()
      invariant found <==> !OneLine(rest)
      invariant found ==> pos < |rest| && rest[pos] == '\n' && OneLine(rest[..pos])
      invariant Draining(all, done, rest)
      invariant ring.history == old(ring.history) + Tagged(done, stream)
      decreases |rest|
    {
      ghost var more;
      rest, more := FeedLine(rest, pos, stream, ring, all, done);
      done := done + more;
      found, pos := FindNewline(rest);
    }
    Drained(all, done, rest);
  }

  // The chunk goes behind what is left of the earlier ones.
  method FeedLines(buf: string, chunk: string, stream: LogStream, ring: LogRingBuffer) returns (rest: string)
    requires ring.Valid()
    modifies ring
    ensures ring.Valid()
    ensures rest == PartsOf(buf + chunk).rest
    ensures ring.history == old(ring.history) + Tagged(PartsOf(buf + chunk).lines, stream)
  {
    ghost var done;
    DrainsNothing(buf + chunk);
    rest, done := FeedAll(buf + chunk, stream, ring, PartsOf(buf + chunk));
  }

  // After these chunks: each stream's lines among the records, and each stream's unfinished rest.
  ghost predicate Delivered(
    records: seq<Record>, chunks: seq<(LogStream, string)>, stream: LogStream, rest: string)
  {
    Parts(LinesOf(records, stream), rest) == PartsOf(TextOf(chunks, stream))
  }

  lemma DeliverOwn(
    records: seq<Record>, chunks: seq<(LogStream, string)>, stream: LogStream, rest: string, chunk: string)
    requires Delivered(records, chunks, stream, rest)
    ensures var fed := PartsOf(rest + chunk);
            Delivered(records + Tagged(fed.lines, stream), chunks + [(stream, chunk)], stream, fed.rest)
  {
    var lines := PartsOf(rest + chunk).lines;
    PartsContinue(TextOf(chunks, stream), chunk);
    LinesOfConcat(records, Tagged(lines, stream), stream);
    LinesOfTagged(lines, stream, stream);
    assert (chunks + [(stream, chunk)])[..|chunks|] == chunks;
  }

  lemma DeliverOther(
    records: seq<Record>, chunks: seq<(LogStream, string)>, stream: LogStream, rest: string,
    tag: LogStream, lines: seq<string>, chunk: string)
    requires Delivered(records, chunks, stream, rest) && tag != stream
    ensures Delivered(records + Tagged(lines, tag), chunks + [(tag, chunk)], stream, rest)
  {
    LinesOfConcat(records, Tagged(lines, tag), stream);
    LinesOfTagged(lines, tag, stream);
    assert LinesOf(records, stream) + [] == LinesOf(records, stream);
    assert (chunks + [(tag, chunk)])[..|chunks|] == chunks;
    assert TextOf(chunks, stream) + "" == TextOf(chunks, stream);
  }

  // One more chunk, with what it added.
  lemma DeliverNext(
    added: seq<Record>, chunks: seq<(LogStream, string)>, n: nat, rest: string, otherRest: string, other: LogStream)
    requires n < |chunks| && other != chunks[n].0
    requires Delivered(added, chunks[..n], chunks[n].0, rest) && Delivered(added, chunks[..n], other, otherRest)
    ensures var (stream, chunk) := chunks[n];
            var fed := PartsOf(rest + chunk);
            && Delivered(added + Tagged(fed.lines, stream), chunks[..n + 1], stream, fed.rest)
            && Delivered(added + Tagged(fed.lines, stream), chunks[..n + 1], other, otherRest)
  {
    var (stream, chunk) := chunks[n];
    assert chunks[..n + 1] == chunks[..n] + [(stream, chunk)];
    DeliverOwn(added, chunks[..n], stream, rest, chunk);
    DeliverOther(added, chunks[..n], other, otherRest, stream, PartsOf(rest + chunk).lines, chunk);
  }

  function RestOf(stream: LogStream, stdoutRest: string, stderrRest: string): string {
    if stream == Stdout then stdoutRest else stderrRest
  }

  // The two unfinished rests belong together with what the chunks so far have added.
  ghost predicate BothDelivered(
    added: seq<Record>, chunks: seq<(LogStream, string)>, stdoutRest: string, stderrRest: string)
  {
    forall stream :: Delivered(added, chunks, stream, RestOf(stream, stdoutRest, stderrRest))
  }

  lemma DeliveredNothing(chunks: seq<(LogStream, string)>)
    ensures BothDelivered([], chunks[..0], "", "")
  {
  }

  lemma DeliveredAll(
    added: seq<Record>, chunks: seq<(LogStream, string)>, n: nat, stdoutRest: string, stderrRest: string)
    requires n == |chunks| && BothDelivered(added, chunks[..n], stdoutRest, stderrRest)
    ensures Delivered(added, chunks, Stdout, stdoutRest) && Delivered(added, chunks, Stderr, stderrRest)
  {
    assert chunks[..n] == chunks;
    assert RestOf(Stdout, stdoutRest, stderrRest) == stdoutRest && RestOf(Stderr, stdoutRest, stderrRest) == stderrRest;
  }

  // What feeding the next chunk to the buffer of its own stream amounts to.
  lemma StdoutDelivered(
    added: seq<Record>, chunks: seq<(LogStream, string)>, n: nat, stdoutBuf: string, stderrBuf: string, fed: Parts)
    requires n < |chunks| && chunks[n].0 == Stdout && fed == PartsOf(stdoutBuf + chunks[n].1)
    requires BothDelivered(added, chunks[..n], stdoutBuf, stderrBuf)
    ensures BothDelivered(added + Tagged(fed.lines, Stdout), chunks[..n + 1], fed.rest, stderrBuf)
  {
    assert RestOf(Stdout, stdoutBuf, stderrBuf) == stdoutBuf && RestOf(Stderr, stdoutBuf, stderrBuf) == stderrBuf;
    DeliverNext(added, chunks, n, stdoutBuf, stderrBuf, Stderr);
  }

  lemma StderrDelivered(
    added: seq<Record>, chunks: seq<(LogStream, string)>, n: nat, stdoutBuf: string, stderrBuf: string, fed: Parts)
    requires n < |chunks| && chunks[n].0 == Stderr && fed == PartsOf(stderrBuf + chunks[n].1)
    requires BothDelivered(added, chunks[..n], stdoutBuf, stderrBuf)
    ensures BothDelivered(added + Tagged(fed.lines, Stderr), chunks[..n + 1], stdoutBuf, fed.rest)
  {
    assert RestOf(Stdout, stdoutBuf, stderrBuf) == stdoutBuf && RestOf(Stderr, stdoutBuf, stderrBuf) == stderrBuf;
    DeliverNext(added, chunks, n, stderrBuf, stdoutBuf, Stdout);
  }

  // A chunk goes to the buffer of its own stream.
  method FeedChunk(
    chunks: seq<(LogStream, string)>, n: nat, stdoutBuf: string, stderrBuf: string, ring: LogRingBuffer,
    ghost before: seq<Record>, ghost added: seq<Record>)
    returns (stdoutRest: string, stderrRest: string, ghost more: seq<Record>)
    requires ring.Valid() && n < |chunks| && BothDelivered(added, chunks[..n], stdoutBuf, stderrBuf)
    requires ring.history == before + added
    modifies ring
    ensures ring.Valid() && ring.history == before + more
    ensures BothDelivered(more, chunks[..n + 1], stdoutRest, stderrRest)
  {
    var (stream, chunk) := chunks[n];
    stdoutRest, stderrRest := stdoutBuf, stderrBuf;
    ghost var fed;
    if stream == Stdout {
      fed := PartsOf(stdoutBuf + chunk);
      StdoutDelivered(added, chunks, n, stdoutBuf, stderrBuf, fed);
      stdoutRest := FeedLines(stdoutBuf, chunk, stream, ring);
    } else {
      fed := PartsOf(stderrBuf + chunk);
      StderrDelivered(added, chunks, n, stdoutBuf, stderrBuf, fed);
      stderrRest := FeedLines(stderrBuf, chunk, stream, ring);
    }
    more := added + Tagged(fed.lines, stream);
  }

  /**
   A container's whole log, into the function's ring, whatever earlier containers put there: however its two
   streams are cut into chunks, the lines of each stream that are added are the complete non-empty lines of
   that stream's text, in order.  The texts alone decide, so two ways of cutting them deliver the same.
   */
  method DrainLog(chunks: seq<(LogStream, string)>, ring: LogRingBuffer)
    returns (stdoutRest: string, stderrRest: string, ghost added: seq<Record>)
    requires ring.Valid()
    modifies ring
    ensures ring.Valid() && ring.history == old(ring.history) + added
    ensures Delivered(added, chunks, Stdout, stdoutRest)
    ensures Delivered(added, chunks, Stderr, stderrRest)
  {
    stdoutRest, stderrRest, added := "", "", [];
    DeliveredNothing(chunks);
    var n := 0;
    while n < |chunks|
      invariant 0 <= n <= |chunks| && ring.Valid()
      invariant ring.history == old(ring.history) + added
      invariant BothDelivered(added, chunks[..n], stdoutRest, stderrRest)
    {
      stdoutRest, stderrRest, added := FeedChunk(chunks, n, stdoutRest, stderrRest, ring, old(ring.history), added);
      n := n + 1;
    }
    DeliveredAll(added, chunks, n, stdoutRest, stderrRest);
  }

  // What the definition of lines by characters amounts to: joined by newlines, the lines and the rest are
  // the text without its empty lines.
  function Compact(text: string): string {
    if text == "" then ""
    else
      var before := Compact(text[..|text| - 1]);
      var c := text[|text| - 1];
      if c == '\n' && (before == "" || before[|before| - 1] == '\n') then before else before + [c]
  }

  function Unlines(lines: seq<string>): string {
    if lines == [] then "" else Unlines(lines[..|lines| - 1]) + lines[|lines| - 1] + "\n"
  }

  lemma {:induction false} UnlinesEnds(lines: seq<string>)
    ensures lines != [] ==> Unlines(lines) != "" && Unlines(lines)[|Unlines(lines)| - 1] == '\n'
    ensures lines == [] ==> Unlines(lines) == ""
  {
  }

  lemma {:induction false} PartsMakeText(text: string)
    ensures Unlines(PartsOf(text).lines) + PartsOf(text).rest == Compact(text)
  {
    if text != "" {
      var init, c := text[..|text| - 1], text[|text| - 1];
      PartsMakeText(init);
      PartsShape(init);
      MakeTextStep(PartsOf(init), c);
    }
  }

  lemma MakeTextStep(p: Parts, c: char)
    requires OneLine(p.rest)
    ensures var before, after := Unlines(p.lines) + p.rest, AddChar(p, c);
            Unlines(after.lines) + after.rest
              == if c == '\n' && (before == "" || before[|before| - 1] == '\n') then before else before + [c]
  {
    UnlinesEnds(p.lines);
    if c != '\n' {
      assert Unlines(p.lines) + (p.rest + [c]) == Unlines(p.lines) + p.rest + [c];
    } else if p.rest != "" {
      MakeLine(p);
    } else {
      assert Unlines(p.lines) + p.rest == Unlines(p.lines);
    }
  }

  lemma MakeLine(p: Parts)
    requires OneLine(p.rest) && p.rest != ""
    ensures var before := Unlines(p.lines) + p.rest;
            Unlines(p.lines + [p.rest]) + "" == before + ['\n'] && before[|before| - 1] != '\n'
  {
    var before := Unlines(p.lines) + p.rest;
    assert before[|before| - 1] == p.rest[|p.rest| - 1] && p.rest[|p.rest| - 1] in p.rest;
    assert (p.lines + [p.rest])[..|p.lines|] == p.lines;
  }
}
