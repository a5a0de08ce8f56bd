/** The chunked, bounded line splitter behind a Codex session's two readers, proved to agree with
    splitting the whole stream at its line feeds, however the stream was cut into chunks. */
module Framing {
  import opened Splitting

  newtype byte = b: int | 0 <= b < 256

  const LINE_FEED: byte := 0x0a
  const CARRIAGE_RETURN: byte := 0x0d

  /** Bytes held back for a line with no terminator yet, as the chunks they arrived in. */
  datatype PendingLine = PendingLine(chunks: seq<seq<byte>>, bytes: nat)

  datatype Framed = Framed(state: PendingLine, emit: seq<seq<byte>>) | Overflow

  const NOTHING_PENDING := PendingLine([], 0)

  function Flatten(chunks: seq<seq<byte>>): (s: seq<byte>)
  {
    if chunks == [] then [] else Flatten(chunks[..|chunks| - 1]) + chunks[|chunks| - 1]
  }

  /** Drops the carriage return of a CRLF. */
  function Stripped(raw: seq<byte>): (line: seq<byte>)
    ensures line <= raw && |raw| <= |line| + 1
  {
    if raw != [] && raw[|raw| - 1] == CARRIAGE_RETURN then raw[..|raw| - 1] else raw
  }

  function StrippedAll(lines: seq<seq<byte>>): (r: seq<seq<byte>>)
    ensures |r| == |lines|
    ensures forall i :: 0 <= i < |r| ==> r[i] == Stripped(lines[i])
  {
    seq(|lines|, i requires 0 <= i < |lines| => Stripped(lines[i]))
  }

  /** The held buffer's invariant: a count that is true, no line feed, and one byte over the limit
      at most (the CR of a CRLF whose LF has not arrived). */
  ghost predicate Held(limit: nat, pending: PendingLine) {
    && pending.bytes == |Flatten(pending.chunks)|
    && LINE_FEED !in Flatten(pending.chunks)
    && pending.bytes <= limit + 1
  }

  /** Some line is over the limit once its CR is gone. */
  ghost predicate AnyLong(limit: nat, lines: seq<seq<byte>>) {
    exists i :: 0 <= i < |lines| && |Stripped(lines[i])| > limit
  }

  /** The stream `s` breaks the framing limit, a statement that mentions no chunk. */
  ghost predicate Overruns(limit: nat, s: seq<byte>) {
    AnyLong(limit, Lines(s, LINE_FEED)) || |Tail(s, LINE_FEED)| > limit + 1
  }

  /** What a reader that flushes its unterminated tail rejects besides. */
  ghost predicate TailOverruns(limit: nat, s: seq<byte>) {
    |Stripped(Tail(s, LINE_FEED))| > limit
  }

  ghost predicate Rejects(limit: nat, flush: bool, s: seq<byte>) {
    Overruns(limit, s) || (flush && TailOverruns(limit, s))
  }

  /** What a reader of the whole stream `s` is owed. */
  ghost function Owed(flush: bool, s: seq<byte>): seq<seq<byte>> {
    StrippedAll(Lines(s, LINE_FEED)) +
    if flush && Tail(s, LINE_FEED) != [] then [Stripped(Tail(s, LINE_FEED))] else []
  }

  /** `lines` is at most what precedes the first line of `s` that is over the limit. */
  ghost predicate BeforeOffender(limit: nat, lines: seq<seq<byte>>, s: seq<byte>) {
    && lines <= StrippedAll(Lines(s, LINE_FEED))
    && forall i :: 0 <= i < |lines| ==> |lines[i]| <= limit
  }

  /** The first `k` chunks pass, and the reader gives up right after them: on the next chunk, or at
      the end of the stream on the tail it would have flushed. */
  ghost predicate StopsAfter(limit: nat, flush: bool, chunks: seq<seq<byte>>, k: nat) {
    && k <= |chunks|
    && !Overruns(limit, Flatten(chunks[..k]))
    && (if k < |chunks| then Overruns(limit, Flatten(chunks[..k + 1]))
        else flush && TailOverruns(limit, Flatten(chunks)))
  }

  lemma FlattenAppend(chunks: seq<seq<byte>>, chunk: seq<byte>)
    ensures Flatten(chunks + [chunk]) == Flatten(chunks) + chunk
  {
    assert (chunks + [chunk])[..|chunks|] == chunks;
  }

  lemma FlattenOne(chunk: seq<byte>)
    ensures Flatten([chunk]) == chunk
  {
    FlattenAppend([], chunk);
    assert [] + [chunk] == [chunk];
  }

  lemma StrippedAllAppend(a: seq<seq<byte>>, b: seq<seq<byte>>)
    ensures StrippedAll(a + b) == StrippedAll(a) + StrippedAll(b)
  {}

  /** Arrivals split off the last tail exactly the lines the longer stream adds. */
  lemma OwedResumes(a: seq<byte>, b: seq<byte>)
    ensures StrippedAll(Lines(a + b, LINE_FEED)) ==
            StrippedAll(Lines(a, LINE_FEED)) + StrippedAll(Lines(Tail(a, LINE_FEED) + b, LINE_FEED))
    ensures Tail(a + b, LINE_FEED) == Tail(Tail(a, LINE_FEED) + b, LINE_FEED)
  {
    SplitResumes(a, b, LINE_FEED);
    StrippedAllAppend(Lines(a, LINE_FEED), Lines(Tail(a, LINE_FEED) + b, LINE_FEED));
  }

  lemma AnyLongAppend(limit: nat, a: seq<seq<byte>>, b: seq<seq<byte>>)
    ensures AnyLong(limit, a + b) <==> AnyLong(limit, a) || AnyLong(limit, b)
  {
    if AnyLong(limit, a) {
      var i :| 0 <= i < |a| && |Stripped(a[i])| > limit;
      assert (a + b)[i] == a[i];
    }
    if AnyLong(limit, b) {
      var i :| 0 <= i < |b| && |Stripped(b[i])| > limit;
      assert (a + b)[|a| + i] == b[i];
    }
  }

  /** The verdict on a longer stream is the verdict on the tail it grew from, if the shorter stream
      had passed. This is what lets the splitter forget everything but its tail. */
  lemma OverrunsResumes(limit: nat, a: seq<byte>, b: seq<byte>)
    requires !Overruns(limit, a)
    ensures Overruns(limit, a + b) <==> Overruns(limit, Tail(a, LINE_FEED) + b)
  {
    SplitResumes(a, b, LINE_FEED);
    AnyLongAppend(limit, Lines(a, LINE_FEED), Lines(Tail(a, LINE_FEED) + b, LINE_FEED));
  }

  /** A tail already over the allowance makes a long line when it ends, and a long tail if it never
      does: rejecting it early rejects nothing that would have passed. */
  lemma LongTailDooms(limit: nat, tail: seq<byte>, b: seq<byte>)
    requires LINE_FEED !in tail && |tail| > limit + 1
    ensures Overruns(limit, tail + b)
  {
    var s := tail + b;
    if LINE_FEED in s {
      var i := Find(s, LINE_FEED);
      assert i >= |tail| by { forall k | 0 <= k < |tail| ensures s[k] != LINE_FEED { assert s[k] == tail[k]; } }
      assert Lines(s, LINE_FEED)[0] == s[..i];
    }
  }

  /** No continuation of a rejected stream is accepted. */
  lemma OverrunIsFinal(limit: nat, a: seq<byte>, b: seq<byte>)
    requires Overruns(limit, a)
    ensures Overruns(limit, a + b)
  {
    SplitResumes(a, b, LINE_FEED);
    AnyLongAppend(limit, Lines(a, LINE_FEED), Lines(Tail(a, LINE_FEED) + b, LINE_FEED));
    if !AnyLong(limit, Lines(a, LINE_FEED)) {
      LongTailDooms(limit, Tail(a, LINE_FEED), b);
    }
  }

  lemma FirstStripped(raw: seq<byte>, lines: seq<seq<byte>>)
    ensures StrippedAll([raw] + lines) == [Stripped(raw)] + StrippedAll(lines)
  {}

  /** A line and the terminator it was written with. */
  datatype Written = Written(text: seq<byte>, crlf: bool)

  ghost function Texts(lines: seq<Written>): seq<seq<byte>> {
    seq(|lines|, i requires 0 <= i < |lines| => lines[i].text)
  }

  /** The lines one after another, and what follows the last of them. */
  ghost function Rendered(lines: seq<Written>, tail: seq<byte>): seq<byte> {
    if lines == [] then tail
    else lines[0].text + (if lines[0].crlf then [0x0d, 0x0a] else [0x0a]) + Rendered(lines[1..], tail)
  }

  /** A text that can be told from its terminator: it has no line feed, and does not end in a carriage
      return that a lone line feed would make a CRLF. */
  ghost predicate Writable(line: Written) {
    0x0a !in line.text && (line.crlf || line.text == [] || line.text[|line.text| - 1] != 0x0d)
  }

  lemma OneWritten(line: Written, rest: seq<byte>)
    requires Writable(line)
    ensures var whole := line.text + (if line.crlf then [0x0d, 0x0a] else [0x0a]) + rest;
            var raw := line.text + if line.crlf then [0x0d] else [];
            && Lines(whole, LINE_FEED) == [raw] + Lines(rest, LINE_FEED) && Tail(whole, LINE_FEED) == Tail(rest, LINE_FEED)
            && Stripped(raw) == line.text
  {
    var raw := line.text + if line.crlf then [0x0d] else [];
    assert line.text + (if line.crlf then [0x0d, 0x0a] else [0x0a]) + rest == raw + [LINE_FEED] + rest;
    SplitFirst(raw, rest, LINE_FEED);
    assert line.crlf ==> raw[..|raw| - 1] == line.text;
    assert !line.crlf ==> raw == line.text;
  }

  ghost predicate ComesBack(lines: seq<Written>, tail: seq<byte>, s: seq<byte>) {
    StrippedAll(Lines(s, LINE_FEED)) == Texts(lines) && Tail(s, LINE_FEED) == tail
  }

  lemma FirstComesBack(lines: seq<Written>, tail: seq<byte>, rest: seq<byte>)
    requires lines != [] && Writable(lines[0]) && ComesBack(lines[1..], tail, rest)
    ensures ComesBack(lines, tail, lines[0].text + (if lines[0].crlf then [0x0d, 0x0a] else [0x0a]) + rest)
  {
    OneWritten(lines[0], rest);
    FirstStripped(lines[0].text + if lines[0].crlf then [0x0d] else [], Lines(rest, LINE_FEED));
    FirstText(lines);
  }

  lemma FirstText(lines: seq<Written>)
    requires lines != []
    ensures Texts(lines) == [lines[0].text] + Texts(lines[1..])
  {}

  /** Lines written with LF or CRLF come back as they were, whichever each was written with, and an
      unterminated tail after them. */
  lemma {:induction false} LinesComeBack(lines: seq<Written>, tail: seq<byte>)
    requires (forall i :: 0 <= i < |lines| ==> Writable(lines[i])) && 0x0a !in tail
    ensures ComesBack(lines, tail, Rendered(lines, tail))
    decreases |lines|
  {
    if lines == [] {
      assert Texts(lines) == [] == StrippedAll([]);
    } else {
      LinesComeBack(lines[1..], tail);
      FirstComesBack(lines, tail, Rendered(lines[1..], tail));
    }
  }

  lemma LongAs(limit: nat, raws: seq<seq<byte>>)
    ensures AnyLong(limit, raws) <==> exists i :: 0 <= i < |raws| && |StrippedAll(raws)[i]| > limit
  {
    if i :| 0 <= i < |raws| && |Stripped(raws[i])| > limit { assert |StrippedAll(raws)[i]| > limit; }
  }

  /** So both readers are owed exactly what was written, and reject it exactly when a line's text is over
      the limit. */
  lemma WrittenIsRead(limit: nat, flush: bool, lines: seq<Written>)
    requires forall i :: 0 <= i < |lines| ==> Writable(lines[i])
    ensures Owed(flush, Rendered(lines, [])) == Texts(lines)
    ensures Rejects(limit, flush, Rendered(lines, [])) <==> exists i :: 0 <= i < |lines| && |Texts(lines)[i]| > limit
  {
    LinesComeBack(lines, []);
    LongAs(limit, Lines(Rendered(lines, []), LINE_FEED));
  }

  lemma FirstLong(limit: nat, raw: seq<byte>, lines: seq<seq<byte>>)
    ensures AnyLong(limit, [raw] + lines) <==> |Stripped(raw)| > limit || AnyLong(limit, lines)
  {
    AnyLongAppend(limit, [raw], lines);
    OneLong(limit, raw);
  }

  lemma OneLong(limit: nat, raw: seq<byte>)
    ensures AnyLong(limit, [raw]) <==> |Stripped(raw)| > limit
  {
    assert [raw][0] == raw;
  }

  lemma CutFirst(limit: nat, buffer: seq<byte>, i: nat, lines: seq<seq<byte>>)
    requires i < |buffer| && buffer[i] == LINE_FEED && LINE_FEED !in buffer[..i]
    requires lines == Lines(buffer[i + 1..], LINE_FEED)
    ensures StrippedAll(Lines(buffer, LINE_FEED)) == [Stripped(buffer[..i])] + StrippedAll(lines)
    ensures Tail(buffer, LINE_FEED) == Tail(buffer[i + 1..], LINE_FEED)
    ensures AnyLong(limit, Lines(buffer, LINE_FEED)) <==> |Stripped(buffer[..i])| > limit || AnyLong(limit, lines)
  {
    FirstLine(buffer, LINE_FEED, i);
    FirstStripped(buffer[..i], lines);
    FirstLong(limit, buffer[..i], lines);
  }

  /** How far the splitting loop is: `emit` are the first lines of `whole`, none of them long, and
      `buffer` is what is left of it. */
  ghost predicate Cutting(limit: nat, whole: seq<byte>, emit: seq<seq<byte>>, buffer: seq<byte>) {
    && StrippedAll(Lines(whole, LINE_FEED)) == emit + StrippedAll(Lines(buffer, LINE_FEED))
    && Tail(whole, LINE_FEED) == Tail(buffer, LINE_FEED)
    && (AnyLong(limit, Lines(whole, LINE_FEED)) <==> AnyLong(limit, Lines(buffer, LINE_FEED)))
  }

  /** One turn of the splitting loop. */
  lemma CutNext(limit: nat, whole: seq<byte>, emit: seq<seq<byte>>, buffer: seq<byte>, i: nat)
    requires i < |buffer| && buffer[i] == LINE_FEED && LINE_FEED !in buffer[..i] && Cutting(limit, whole, emit, buffer)
    ensures var line := Stripped(buffer[..i]);
            if |line| > limit then AnyLong(limit, Lines(whole, LINE_FEED))
            else Cutting(limit, whole, emit + [line], buffer[i + 1..])
  {
    var lines := Lines(buffer[i + 1..], LINE_FEED);
    CutFirst(limit, buffer, i, lines);
    Associates(emit, [Stripped(buffer[..i])], StrippedAll(lines));
  }

  /** With no line feed left, everything is decided by what remains. */
  lemma CutEnds(limit: nat, whole: seq<byte>, emit: seq<seq<byte>>, buffer: seq<byte>)
    requires LINE_FEED !in buffer && Cutting(limit, whole, emit, buffer)
    ensures emit == StrippedAll(Lines(whole, LINE_FEED)) && buffer == Tail(whole, LINE_FEED)
    ensures Overruns(limit, whole) <==> |buffer| > limit + 1
  {}

  /** Splits one chunk into complete lines, or rejects it because the limit was overrun. */
  method Frame(limit: nat, pending: PendingLine, chunk: seq<byte>) returns (framed: Framed)
    requires Held(limit, pending)
    ensures framed.Overflow? <==> Overruns(limit, Flatten(pending.chunks) + chunk)
    ensures framed.Framed? ==>
              && framed.emit == StrippedAll(Lines(Flatten(pending.chunks) + chunk, LINE_FEED))
              && Flatten(framed.state.chunks) == Tail(Flatten(pending.chunks) + chunk, LINE_FEED)
              && Held(limit, framed.state)
  {
    var bytes := pending.bytes + |chunk|;
    var held := PendingLine(pending.chunks + [chunk], bytes);
    FlattenAppend(pending.chunks, chunk);
    if LINE_FEED !in chunk {
      return if bytes > limit + 1 then Overflow else Framed(held, []);
    }
    var buffer := Flatten(held.chunks);
    ghost var whole := buffer;
    var emit: seq<seq<byte>> := [];
    while LINE_FEED in buffer
      invariant Cutting(limit, whole, emit, buffer)
      decreases |buffer|
    {
      var index := Find(buffer, LINE_FEED);
      CutNext(limit, whole, emit, buffer, index);
      var line := Stripped(buffer[..index]);
      buffer := buffer[index + 1..];
      if |line| > limit {
        return Overflow;
      }
      emit := emit + [line];
    }
    CutEnds(limit, whole, emit, buffer);
    if |buffer| > limit + 1 {
      return Overflow;
    }
    FlattenOne(buffer);
    framed := Framed(if buffer == [] then NOTHING_PENDING else PendingLine([buffer], |buffer|), emit);
  }

  /** Runs a whole reader over a stream that arrived as `chunks`. `flush` is the diagnostic reader's
      option: a tail left unterminated at the end is a record rather than dropped.

      Every clause but the last speaks of the concatenated stream alone, so two ways to cut the same
      stream get the same verdict and, when it is accepted, the same lines. */
  method FramedLines(limit: nat, flush: bool, chunks: seq<seq<byte>>)
    returns (lines: seq<seq<byte>>, failed: bool)
    ensures failed <==> Rejects(limit, flush, Flatten(chunks))
    ensures !failed ==> lines == Owed(flush, Flatten(chunks))
    ensures failed ==> BeforeOffender(limit, lines, Flatten(chunks))
    ensures failed ==> exists k: nat :: StopsAfter(limit, flush, chunks, k) &&
                                   lines == StrippedAll(Lines(Flatten(chunks[..k]), LINE_FEED))
  {
    var pending := NOTHING_PENDING;
    lines := [];
    var k := 0;
    while k < |chunks|
      invariant 0 <= k <= |chunks|
      invariant Held(limit, pending)
      invariant Flatten(pending.chunks) == Tail(Flatten(chunks[..k]), LINE_FEED)
      invariant lines == StrippedAll(Lines(Flatten(chunks[..k]), LINE_FEED))
      invariant !Overruns(limit, Flatten(chunks[..k]))
    {
      ChunkArrives(limit, chunks, k);
      var framed := Frame(limit, pending, chunks[k]);
      if framed.Overflow? {
        FailureInside(limit, flush, chunks, k, lines);
        assert StopsAfter(limit, flush, chunks, k);
        return lines, true;
      }
      lines := lines + framed.emit;
      pending := framed.state;
      k := k + 1;
    }
    assert chunks[..k] == chunks;
    if flush && pending.bytes != 0 {
      var line := Stripped(Flatten(pending.chunks));
      if |line| > limit {
        NoLongLine(limit, Flatten(chunks), lines);
        assert StopsAfter(limit, flush, chunks, |chunks|);
        return lines, true;
      }
      lines := lines + [line];
    }
    failed := false;
  }

  lemma ChunkArrives(limit: nat, chunks: seq<seq<byte>>, k: nat)
    requires k < |chunks| && !Overruns(limit, Flatten(chunks[..k]))
    ensures var before, after := Flatten(chunks[..k]), Flatten(chunks[..k + 1]);
            var held := Tail(before, LINE_FEED) + chunks[k];
            && (Overruns(limit, after) <==> Overruns(limit, held))
            && Tail(after, LINE_FEED) == Tail(held, LINE_FEED)
            && StrippedAll(Lines(after, LINE_FEED)) ==
               StrippedAll(Lines(before, LINE_FEED)) + StrippedAll(Lines(held, LINE_FEED))
  {
    assert chunks[..k + 1] == chunks[..k] + [chunks[k]];
    FlattenAppend(chunks[..k], chunks[k]);
    OwedResumes(Flatten(chunks[..k]), chunks[k]);
    OverrunsResumes(limit, Flatten(chunks[..k]), chunks[k]);
  }

  lemma NoLongLine(limit: nat, s: seq<byte>, lines: seq<seq<byte>>)
    requires !AnyLong(limit, Lines(s, LINE_FEED)) && lines == StrippedAll(Lines(s, LINE_FEED))
    ensures forall i :: 0 <= i < |lines| ==> |lines[i]| <= limit
  {}

  /** A chunk rejected at position `k` dooms the whole stream, and the lines of the chunks before it
      all precede the offender. */
  lemma FailureInside(limit: nat, flush: bool, chunks: seq<seq<byte>>, k: nat, lines: seq<seq<byte>>)
    requires k < |chunks|
    requires !Overruns(limit, Flatten(chunks[..k])) && Overruns(limit, Flatten(chunks[..k + 1]))
    requires lines == StrippedAll(Lines(Flatten(chunks[..k]), LINE_FEED))
    ensures Rejects(limit, flush, Flatten(chunks))
    ensures BeforeOffender(limit, lines, Flatten(chunks))
  {
    FlattenSplit(chunks, k + 1);
    OverrunIsFinal(limit, Flatten(chunks[..k + 1]), Flatten(chunks[k + 1..]));
    FlattenSplit(chunks, k);
    OwedResumes(Flatten(chunks[..k]), Flatten(chunks[k..]));
    NoLongLine(limit, Flatten(chunks[..k]), lines);
  }

  lemma {:induction false} FlattenSplit(chunks: seq<seq<byte>>, k: nat)
    requires k <= |chunks|
    ensures Flatten(chunks) == Flatten(chunks[..k]) + Flatten(chunks[k..])
    decreases |chunks|
  {
    if k == |chunks| {
      assert chunks[..k] == chunks;
    } else {
      var last := |chunks| - 1;
      FlattenSplit(chunks[..last], k);
      assert chunks[..last][..k] == chunks[..k];
      assert chunks[k..][..last - k] == chunks[..last][k..];
      assert chunks[k..][last - k] == chunks[last];
    }
  }
}
