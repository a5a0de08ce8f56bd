/** Assembling diagnostic records out of framed lines, swallowing multi-line PEM private keys
    (encapsulation boundaries as in section 2 of RFC 7468). */
module PemRecords {
  import opened Options

  /** A key block being swallowed: what ends it, and what preceded it on its opening line. */
  datatype PemCapture = PemCapture(endMarker: string, prefix: string)

  /** Where a line's first key header is, the label it names, and where the header ends. */
  datatype PemHeader = PemHeader(index: nat, tag: string, end: nat)

  datatype Recorded = Recorded(state: Option<PemCapture>, emit: seq<string>)

  const BEGIN := "-----BEGIN "
  const DASHES := "-----"
  const PRIVATE_KEY := "PRIVATE KEY"
  const PRIVATE_KEY_BLOCK := "PRIVATE KEY BLOCK"

  predicate IsLabelChar(c: char) {
    'A' <= c <= 'Z' || '0' <= c <= '9' || c == ' '
  }

  /** The longest run of label characters at the front of `s`. */
  function LabelRun(s: string): (run: string)
    ensures run <= s && (forall i :: 0 <= i < |run| ==> IsLabelChar(run[i]))
    ensures |run| < |s| ==> !IsLabelChar(s[|run|])
  {
    if s == [] || !IsLabelChar(s[0]) then [] else [s[0]] + LabelRun(s[1..])
  }

  predicate EndsWith(s: string, suffix: string) {
    |suffix| <= |s| && s[|s| - |suffix|..] == suffix
  }

  predicate IsKeyLabel(tag: string) {
    EndsWith(tag, PRIVATE_KEY) || EndsWith(tag, PRIVATE_KEY_BLOCK)
  }

  /** A key header opens at the front of `s`; `HeaderMatch` says this is what the pattern means. */
  predicate HeaderAtFront(s: string) {
    && BEGIN <= s
    && var tag := LabelRun(s[|BEGIN|..]);
    && IsKeyLabel(tag)
    && DASHES <= s[|BEGIN| + |tag|..]
  }

  /** The first key header of a line, if it has one. */
  function FindHeader(line: string): (found: Option<PemHeader>)
    ensures found.Some? ==> found.value.index <= found.value.end <= |line|
  {
    if line == [] then None
    else if HeaderAtFront(line) then
      var tag := LabelRun(line[|BEGIN|..]);
      Some(PemHeader(0, tag, |BEGIN| + |tag| + |DASHES|))
    else
      match FindHeader(line[1..])
      case None => None
      case Some(h) => Some(PemHeader(h.index + 1, h.tag, h.end + 1))
  }

  predicate Includes(s: string, part: string) {
    part <= s || (s != [] && Includes(s[1..], part))
  }

  /** White space and line terminators as ECMAScript's `trim` knows them. */
  predicate IsSpace(c: char) {
    || '\U{0009}' <= c <= '\U{000D}' || c == ' ' || c == '\U{00A0}' || c == '\U{1680}'
    || '\U{2000}' <= c <= '\U{200A}' || c == '\U{2028}' || c == '\U{2029}' || c == '\U{202F}'
    || c == '\U{205F}' || c == '\U{3000}' || c == '\U{FEFF}'
  }

  function TrimStart(s: string): string {
    if s != [] && IsSpace(s[0]) then TrimStart(s[1..]) else s
  }

  function TrimEnd(s: string): string {
    if s != [] && IsSpace(s[|s| - 1]) then TrimEnd(s[..|s| - 1]) else s
  }

  function Trim(s: string): string {
    TrimEnd(TrimStart(s))
  }

  function Redacted(prefix: string): string {
    prefix + "[REDACTED PEM PRIVATE KEY]"
  }

  /** One line, read in the state the lines before it left. */
  function Record(capture: Option<PemCapture>, line: string): (r: Recorded)
  {
    match capture
    case Some(open) =>
      if Includes(line, open.endMarker) then Recorded(None, [Redacted(open.prefix)])
      else Recorded(capture, [])
    case None =>
      match FindHeader(line)
      case Some(h) =>
        var endMarker := "-----END " + h.tag + DASHES;
        if Includes(line[h.end..], endMarker) then Recorded(None, [Trim(line)])
        else Recorded(Some(PemCapture(endMarker, line[..h.index])), [])
      case None =>
        var message := Trim(line);
        Recorded(None, if |message| > 0 then [message] else [])
  }

  function Finish(capture: Option<PemCapture>): (emit: seq<string>)
  {
    if capture.None? then [] else [Redacted(capture.value.prefix)]
  }

  /** Everything a reader is handed for `lines`, from a given state to the end of the stream. */
  function Records(capture: Option<PemCapture>, lines: seq<string>): seq<string>
    decreases |lines|
  {
    if lines == [] then Finish(capture)
    else
      var r := Record(capture, lines[0]);
      r.emit + Records(r.state, lines[1..])
  }

  /** The state once `lines` were read. */
  function StateAfter(capture: Option<PemCapture>, lines: seq<string>): Option<PemCapture>
    decreases |lines|
  {
    if lines == [] then capture else StateAfter(Record(capture, lines[0]).state, lines[1..])
  }

  /** What `lines` emit before the end of the stream flushes anything. */
  function Emitted(capture: Option<PemCapture>, lines: seq<string>): seq<string>
    decreases |lines|
  {
    if lines == [] then []
    else
      var r := Record(capture, lines[0]);
      r.emit + Emitted(r.state, lines[1..])
  }

  /** The stream operation: one state carried across the lines and flushed at the end. */
  method DiagnosticRecords(lines: seq<string>) returns (records: seq<string>)
    ensures records == Records(None, lines)
  {
    var state: Option<PemCapture> := None;
    records := [];
    var i := 0;
    while i < |lines|
      invariant 0 <= i <= |lines|
      invariant records + Records(state, lines[i..]) == Records(None, lines)
    {
      var next := Record(state, lines[i]);
      assert lines[i..][1..] == lines[i + 1..];
      records := records + next.emit;
      state := next.state;
      i := i + 1;
    }
    records := records + Finish(state);
  }

  /** The pattern as it is written: the header's literal text, a label the character class and the
      optional suffix admit, and the closing dashes. A label cannot contain a dash, so the greedy
      match can only be the longest run, and whether there is one never depends on backtracking. */
  lemma HeaderMatch(s: string, tag: string)
    ensures (BEGIN + tag + DASHES <= s && IsKeyLabel(tag) &&
             forall i :: 0 <= i < |tag| ==> IsLabelChar(tag[i]))
        <==> (HeaderAtFront(s) && tag == LabelRun(s[|BEGIN|..]))
  {
    ThreeParts(s, BEGIN, tag, DASHES);
    if BEGIN <= s && tag <= s[|BEGIN|..] && DASHES <= s[|BEGIN| + |tag|..] && forall i :: 0 <= i < |tag| ==> IsLabelChar(tag[i]) {
      var rest := s[|BEGIN|..];
      assert rest[|tag|] == s[|BEGIN| + |tag|..][0] == DASHES[0];
      RunIs(rest, tag);
    }
  }

  lemma ThreeParts(s: string, a: string, b: string, c: string)
    ensures a + b + c <= s <==> a <= s && b <= s[|a|..] && |a| + |b| <= |s| && c <= s[|a| + |b|..]
  {
    if a <= s && b <= s[|a|..] && c <= s[|a| + |b|..] {
      assert s[..|a| + |b| + |c|] == a + b + c;
    }
    if a + b + c <= s {
      assert s[..|a|] == (a + b + c)[..|a|] == a;
      assert s[|a|..][..|b|] == (a + b + c)[|a|..|a| + |b|] == b;
      assert s[|a| + |b|..][..|c|] == (a + b + c)[|a| + |b|..] == c;
    }
  }

  lemma {:induction false} RunIs(s: string, tag: string)
    requires |tag| < |s| && tag <= s && !IsLabelChar(s[|tag|])
    requires forall i :: 0 <= i < |tag| ==> IsLabelChar(tag[i])
    ensures LabelRun(s) == tag
  {
    if tag != [] {
      assert tag[0] == s[0] && tag[1..] <= s[1..];
      RunIs(s[1..], tag[1..]);
    }
  }

  /** Reading can stop anywhere and resume from the capture alone. */
  lemma {:induction false} RecordsResume(c: Option<PemCapture>, a: seq<string>, b: seq<string>)
    ensures Records(c, a + b) == Emitted(c, a) + Records(StateAfter(c, a), b)
    decreases |a|
  {
    if a == [] {
      assert a + b == b;
    } else {
      assert (a + b)[1..] == a[1..] + b;
      RecordsResume(Record(c, a[0]).state, a[1..], b);
    }
  }

  /** No line of an open block reaches a record: any number of lines lacking the block's end marker
      can stand where any others stood. */
  lemma {:induction false} SwallowsWhole(open: PemCapture, inside: seq<string>, rest: seq<string>)
    requires forall i :: 0 <= i < |inside| ==> !Includes(inside[i], open.endMarker)
    ensures Records(Some(open), inside + rest) == Records(Some(open), rest)
  {
    if inside == [] {
      assert inside + rest == rest;
    } else {
      assert (inside + rest)[1..] == inside[1..] + rest;
      SwallowsWhole(open, inside[1..], rest);
    }
  }

  /** Two streams that differ only inside an open key block produce the same records. */
  lemma InsideIsInvisible(
    before: seq<string>, inside: seq<string>, inside': seq<string>, after: seq<string>)
    requires StateAfter(None, before).Some?
    requires var marker := StateAfter(None, before).value.endMarker;
             && (forall i :: 0 <= i < |inside| ==> !Includes(inside[i], marker))
             && (forall i :: 0 <= i < |inside'| ==> !Includes(inside'[i], marker))
    ensures Records(None, before + (inside + after)) == Records(None, before + (inside' + after))
  {
    var open := StateAfter(None, before).value;
    RecordsResume(None, before, inside + after);
    RecordsResume(None, before, inside' + after);
    SwallowsWhole(open, inside, after);
    SwallowsWhole(open, inside', after);
  }

  /** What a block is printed with: its label, the text that opens it and the text that closes it. */
  ghost predicate Label(name: string) {
    forall i :: 0 <= i < |name| ==> 'A' <= name[i] <= 'Z' || '0' <= name[i] <= '9' || name[i] == ' '
  }

  ghost predicate KeyTag(tag: string) {
    Label(tag) && ((exists kind :: tag == kind + "PRIVATE KEY") || (exists kind :: tag == kind + "PRIVATE KEY BLOCK"))
  }

  ghost function Opening(tag: string): string { "-----BEGIN " + tag + "-----" }

  ghost function Closing(tag: string): string { "-----END " + tag + "-----" }

  ghost predicate At(s: string, i: nat, part: string) { i <= |s| && part <= s[i..] }

  ghost predicate Holds(s: string, part: string) { exists i: nat :: At(s, i, part) }

  ghost predicate HeaderAt(line: string, i: nat, tag: string) { KeyTag(tag) && At(line, i, Opening(tag)) }

  ghost predicate HoldsHeader(line: string) { exists i: nat, tag :: HeaderAt(line, i, tag) }

  lemma {:induction false} IncludesMeans(s: string, part: string)
    ensures Includes(s, part) <==> Holds(s, part)
  {
    if part <= s {
      assert s[0..] == s && At(s, 0, part);
    } else if s != [] {
      IncludesMeans(s[1..], part);
      if i: nat :| At(s[1..], i, part) {
        assert s[1..][i..] == s[i + 1..];
        assert At(s, i + 1, part);
      }
      assert s[0..] == s && !At(s, 0, part);
      if i: nat :| i > 0 && At(s, i, part) {
        assert s[1..][i - 1..] == s[i..];
        assert At(s[1..], i - 1, part);
      }
    }
  }

  lemma EndsMeans(s: string, suffix: string)
    ensures EndsWith(s, suffix) <==> exists front :: s == front + suffix
  {
    if EndsWith(s, suffix) { assert s == s[..|s| - |suffix|] + suffix; }
  }

  lemma KeyTagMeans(tag: string)
    ensures KeyTag(tag) <==> IsKeyLabel(tag) && forall i :: 0 <= i < |tag| ==> IsLabelChar(tag[i])
  {
    EndsMeans(tag, "PRIVATE KEY");
    EndsMeans(tag, "PRIVATE KEY BLOCK");
  }

  lemma FrontMeans(s: string)
    ensures forall tag :: HeaderAt(s, 0, tag) <==> HeaderAtFront(s) && tag == LabelRun(s[|BEGIN|..])
  {
    assert s[0..] == s;
    forall tag ensures HeaderAt(s, 0, tag) <==> HeaderAtFront(s) && tag == LabelRun(s[|BEGIN|..]) {
      HeaderMatch(s, tag);
      KeyTagMeans(tag);
    }
  }

  lemma HeaderLater(line: string, i: nat, tag: string)
    requires line != []
    ensures HeaderAt(line[1..], i, tag) <==> HeaderAt(line, i + 1, tag)
  {
    if i < |line| { assert line[1..][i..] == line[i + 1..]; }
  }

  /** The header found is the first there is, with its label and where it ends; and if none is found there
      is none. */
  lemma {:induction false} FirstHeader(line: string)
    ensures FindHeader(line).None? ==> !HoldsHeader(line)
    ensures FindHeader(line).Some? ==>
              var h := FindHeader(line).value;
              && HeaderAt(line, h.index, h.tag) && h.end == h.index + |Opening(h.tag)|
              && forall i: nat, tag :: i < h.index ==> !HeaderAt(line, i, tag)
  {
    FrontMeans(line);
    if line != [] && !HeaderAtFront(line) {
      FirstHeader(line[1..]);
      forall i: nat, tag ensures i > 0 ==> (HeaderAt(line, i, tag) <==> HeaderAt(line[1..], i - 1, tag)) {
        if i > 0 { HeaderLater(line, i - 1, tag); }
      }
    }
  }

  /** A header starting before these dashes lies before their end: labels hold no dash. */
  lemma HeaderEnds(p: string, rest: string, i: nat, tag: string)
    requires i < |p| && DASHES <= rest && HeaderAt(p + rest, i, tag)
    ensures i + |Opening(tag)| <= |p| + 5
  {
    var line, open := p + rest, Opening(tag);
    assert forall n :: 0 <= n < |open| ==> open[n] == line[i..][n] == line[i + n];
    forall n | |p| <= n < |p| + 5 ensures line[n] == '-' { assert line[n] == rest[n - |p|] == DASHES[n - |p|]; }
    assert open[5] == 'B' && line[i + 5] == 'B';
    DashesOnlyAtEnds(tag);
    assert |p| - i < |open| ==> open[|p| - i] == line[i + (|p| - i)] == line[|p|];
  }

  lemma DashesOnlyAtEnds(tag: string)
    requires KeyTag(tag)
    ensures forall k :: 5 <= k < |Opening(tag)| - 5 ==> Opening(tag)[k] != '-'
  {
    forall k | 11 <= k < |Opening(tag)| - 5 ensures Opening(tag)[k] != '-' { assert Opening(tag)[k] == tag[k - 11]; }
  }

  lemma HeaderBefore(p: string, rest: string, i: nat, tag: string)
    requires i < |p| && DASHES <= rest && HeaderAt(p + rest, i, tag)
    ensures HeaderAt(p + DASHES, i, tag)
  {
    HeaderEnds(p, rest, i, tag);
    var open := Opening(tag);
    assert (p + rest)[i..][..|open|] == (p + DASHES)[i..][..|open|];
  }

  lemma Grouped(a: string, b: string, c: string)
    ensures a + b + c == a + (b + c)
  {}

  lemma OpeningThere(p: string, tag: string, junk: string)
    requires KeyTag(tag)
    ensures HeaderAt(p + (Opening(tag) + junk), |p|, tag) && DASHES <= Opening(tag) + junk
  {
    assert (p + (Opening(tag) + junk))[|p|..] == Opening(tag) + junk;
    assert DASHES <= Opening(tag);
  }

  /** The header a line is opened with is the first one found, as long as what precedes it makes none. */
  lemma OpeningFound(p: string, tag: string, junk: string)
    requires KeyTag(tag) && !HoldsHeader(p + "-----")
    ensures FindHeader(p + Opening(tag) + junk) == Some(PemHeader(|p|, tag, |p| + |Opening(tag)|))
  {
    var rest := Opening(tag) + junk;
    Grouped(p, Opening(tag), junk);
    OpeningThere(p, tag, junk);
    forall i: nat, t | i < |p| ensures !HeaderAt(p + rest, i, t) { NoneBefore(p, rest, i, t); }
    FirstIs(p + rest, |p|, tag);
  }

  lemma NoneBefore(p: string, rest: string, i: nat, tag: string)
    requires i < |p| && DASHES <= rest && !HoldsHeader(p + DASHES)
    ensures !HeaderAt(p + rest, i, tag)
  {
    if HeaderAt(p + rest, i, tag) { HeaderBefore(p, rest, i, tag); }
  }

  lemma FirstIs(line: string, i: nat, tag: string)
    requires HeaderAt(line, i, tag) && forall j: nat, t :: j < i ==> !HeaderAt(line, j, t)
    ensures FindHeader(line) == Some(PemHeader(i, tag, i + |Opening(tag)|))
  {
    FirstHeader(line);
    var h := FindHeader(line).value;
    assert h.index == i;
    OneTag(line, i, tag, h.tag);
  }

  lemma OneTag(line: string, i: nat, tag: string, tag': string)
    requires HeaderAt(line, i, tag) && HeaderAt(line, i, tag')
    ensures tag == tag'
  {
    assert line[i..][0..] == line[i..];
    assert HeaderAt(line[i..], 0, tag) && HeaderAt(line[i..], 0, tag');
    FrontMeans(line[i..]);
  }

  /** A line that opens a block, with anything after its header but the block's end. */
  ghost predicate OpensBlock(p: string, tag: string, junk: string) {
    KeyTag(tag) && !HoldsHeader(p + "-----") && !Holds(junk, Closing(tag))
  }

  lemma OpeningRecorded(p: string, tag: string, junk: string)
    requires OpensBlock(p, tag, junk)
    ensures Record(None, p + Opening(tag) + junk) == Recorded(Some(PemCapture(Closing(tag), p)), [])
  {
    OpeningFound(p, tag, junk);
    var line := p + Opening(tag) + junk;
    assert line[|p| + |Opening(tag)|..] == junk && line[..|p|] == p;
    IncludesMeans(junk, Closing(tag));
  }

  /** None of these lines ends the block. */
  ghost predicate Inside(tag: string, lines: seq<string>) {
    forall i :: 0 <= i < |lines| ==> !Holds(lines[i], Closing(tag))
  }

  lemma BlockSwallowed(p: string, tag: string, junk: string, inside: seq<string>, rest: seq<string>)
    requires OpensBlock(p, tag, junk) && Inside(tag, inside)
    ensures Records(None, [p + Opening(tag) + junk] + inside + rest) == Records(Some(PemCapture(Closing(tag), p)), rest)
  {
    var line, open := p + Opening(tag) + junk, PemCapture(Closing(tag), p);
    OpeningRecorded(p, tag, junk);
    forall i | 0 <= i < |inside| ensures !Includes(inside[i], open.endMarker) { IncludesMeans(inside[i], open.endMarker); }
    SwallowsWhole(open, inside, rest);
    assert ([line] + inside + rest)[1..] == inside + rest;
  }

  /** A printed key block comes out as one record: what stood before its header, and the redaction text,
      whatever else is on its opening line, on the lines inside it, or around its end marker. */
  lemma PrintedBlock(p: string, tag: string, junk: string, inside: seq<string>, closing: string, after: seq<string>)
    requires OpensBlock(p, tag, junk) && Inside(tag, inside) && Holds(closing, Closing(tag))
    ensures Records(None, [p + Opening(tag) + junk] + inside + ([closing] + after)) ==
            [p + "[REDACTED PEM PRIVATE KEY]"] + Records(None, after)
  {
    BlockSwallowed(p, tag, junk, inside, [closing] + after);
    IncludesMeans(closing, Closing(tag));
    assert ([closing] + after)[1..] == after;
  }

  /** And so does one the stream ends in. */
  lemma PrintedBlockUnclosed(p: string, tag: string, junk: string, inside: seq<string>)
    requires OpensBlock(p, tag, junk) && Inside(tag, inside)
    ensures Records(None, [p + Opening(tag) + junk] + inside) == [p + "[REDACTED PEM PRIVATE KEY]"]
  {
    BlockSwallowed(p, tag, junk, inside, []);
    assert [p + Opening(tag) + junk] + inside + [] == [p + Opening(tag) + junk] + inside;
  }

  /** A block opened and ended on one line is that line, for redaction to see whole. */
  lemma OneLineBlock(p: string, tag: string, junk: string, after: seq<string>)
    requires KeyTag(tag) && !HoldsHeader(p + "-----") && Holds(junk, Closing(tag))
    ensures Records(None, [p + Opening(tag) + junk] + after) == [Trim(p + Opening(tag) + junk)] + Records(None, after)
  {
    var line := p + Opening(tag) + junk;
    OpeningFound(p, tag, junk);
    assert line[|p| + |Opening(tag)|..] == junk;
    IncludesMeans(junk, Closing(tag));
    assert ([line] + after)[1..] == after;
  }

  /** A line with no header in it is a record of its own, trimmed, unless it is blank. */
  lemma PlainLine(line: string, after: seq<string>)
    requires !HoldsHeader(line)
    ensures Records(None, [line] + after) == (if Trim(line) == [] then [] else [Trim(line)]) + Records(None, after)
  {
    FirstHeader(line);
    assert ([line] + after)[1..] == after;
  }

  /** Two streams that differ only after the header of a key block and before its end, on its opening line
      or on the lines after it, produce the same records. */
  lemma KeyMaterialIsInvisible(
    before: seq<string>, p: string, tag: string, junk: string, inside: seq<string>, junk': string, inside': seq<string>,
    after: seq<string>)
    requires StateAfter(None, before).None?
    requires OpensBlock(p, tag, junk) && Inside(tag, inside) && OpensBlock(p, tag, junk') && Inside(tag, inside')
    ensures Records(None, before + ([p + Opening(tag) + junk] + inside + after)) ==
            Records(None, before + ([p + Opening(tag) + junk'] + inside' + after))
  {
    RecordsResume(None, before, [p + Opening(tag) + junk] + inside + after);
    RecordsResume(None, before, [p + Opening(tag) + junk'] + inside' + after);
    BlockSwallowed(p, tag, junk, inside, after);
    BlockSwallowed(p, tag, junk', inside', after);
  }

  ghost predicate AllSpace(s: string) { forall i :: 0 <= i < |s| ==> IsSpace(s[i]) }

  ghost predicate NoSpaceAtEnds(s: string) { s != [] ==> !IsSpace(s[0]) && !IsSpace(s[|s| - 1]) }

  /** Trimming takes the white space off both ends, and nothing else. */
  lemma TrimIs(s: string) returns (front: string, back: string)
    ensures s == front + Trim(s) + back && AllSpace(front) && AllSpace(back) && NoSpaceAtEnds(Trim(s))
  {
    front := TrimStartIs(s);
    back := TrimEndIs(TrimStart(s));
    if Trim(s) != [] { assert TrimStart(s)[0] == Trim(s)[0]; }
  }

  lemma {:induction false} TrimStartIs(s: string) returns (front: string)
    ensures s == front + TrimStart(s) && AllSpace(front) && (TrimStart(s) != [] ==> !IsSpace(TrimStart(s)[0]))
  {
    if s != [] && IsSpace(s[0]) {
      var rest := TrimStartIs(s[1..]);
      front := [s[0]] + rest;
    } else {
      front := [];
    }
  }

  lemma {:induction false} TrimEndIs(s: string) returns (back: string)
    ensures s == TrimEnd(s) + back && AllSpace(back) && (TrimEnd(s) != [] ==> !IsSpace(TrimEnd(s)[|TrimEnd(s)| - 1]))
  {
    if s != [] && IsSpace(s[|s| - 1]) {
      var rest := TrimEndIs(s[..|s| - 1]);
      back := rest + [s[|s| - 1]];
    } else {
      back := [];
    }
  }

  /** A line of blanks and line ends alone is no record. */
  lemma BlankLine(line: string, after: seq<string>)
    requires forall i :: 0 <= i < |line| ==> line[i] in " \t\n\r"
    ensures Records(None, [line] + after) == Records(None, after)
  {
    var front, back := TrimIs(line);
    assert forall i :: 0 <= i < |Trim(line)| ==> Trim(line)[i] == line[|front| + i];
    HeaderHasDash(line);
    PlainLine(line, after);
  }

  lemma HeaderHasDash(line: string)
    ensures HoldsHeader(line) ==> '-' in line
  {
    if i: nat, tag :| HeaderAt(line, i, tag) { assert line[i..][0] == Opening(tag)[0] == '-' && line[i] == line[i..][0]; }
  }

  /** This line opens a block and does not end it. */
  ghost predicate OpensOne(line: string) {
    exists p, tag, junk :: line == p + Opening(tag) + junk && OpensBlock(p, tag, junk)
  }

  lemma OpensMeans(line: string)
    ensures OpensOne(line) <==> Record(None, line).state.Some?
  {
    if p, tag, junk :| line == p + Opening(tag) + junk && OpensBlock(p, tag, junk) { OpeningRecorded(p, tag, junk); }
    if Record(None, line).state.Some? {
      var h := FindHeader(line).value;
      FirstHeader(line);
      IncludesMeans(line[h.end..], Closing(h.tag));
      NothingBefore(line, h.index, h.tag);
      Taken(line, h.index, Opening(h.tag));
    }
  }

  lemma Taken(line: string, i: nat, part: string)
    requires At(line, i, part)
    ensures i + |part| <= |line| && line == line[..i] + part + line[i + |part|..]
  {
    assert line[i..] == part + line[i..][|part|..];
  }

  /** Nothing before the first header makes one with its dashes. */
  lemma NothingBefore(line: string, i: nat, tag: string)
    requires HeaderAt(line, i, tag) && forall j: nat, t :: j < i ==> !HeaderAt(line, j, t)
    ensures !HoldsHeader(line[..i] + DASHES)
  {
    forall j: nat, t ensures !HeaderAt(line[..i] + DASHES, j, t) {
      if HeaderAt(line[..i] + DASHES, j, t) { HeaderCarries(line, i, tag, j, t); }
    }
  }

  lemma HeaderCarries(line: string, i: nat, tag: string, j: nat, t: string)
    requires HeaderAt(line, i, tag) && HeaderAt(line[..i] + DASHES, j, t)
    ensures j < i && HeaderAt(line, j, t)
  {
    Taken(line, i, Opening(tag));
    assert DASHES <= Opening(tag) && DASHES <= line[i..];
    assert line[..i] + DASHES == line[..i + 5];
    assert |Opening(t)| >= 16;
    assert (line[..i] + DASHES)[j..] <= line[j..];
  }

  /** The positions that open a block left open on its own line: the multi-line blocks, whether or
      not an end marker ever closes them. */
  ghost function BlockStarts(c: Option<PemCapture>, lines: seq<string>): set<nat> {
    set i: nat | i < |lines| && StateAfter(c, lines[..i]).None? && OpensOne(lines[i])
  }

  /** The positions outside every block whose line is not blank. */
  ghost function PlainLines(c: Option<PemCapture>, lines: seq<string>): set<nat> {
    set i: nat | i < |lines| && StateAfter(c, lines[..i]).None? && !OpensOne(lines[i]) && Trim(lines[i]) != []
  }

  lemma {:induction false} StateStep(c: Option<PemCapture>, lines: seq<string>, i: nat)
    requires 0 < i <= |lines|
    ensures StateAfter(c, lines[..i]) == StateAfter(Record(c, lines[0]).state, lines[1..][..i - 1])
  {
    assert lines[..i][1..] == lines[1..][..i - 1];
  }

  /** `all` is `later` moved up by one, and perhaps position zero. */
  ghost predicate Shifted(later: set<nat>, all: set<nat>) {
    && (forall i :: i in later ==> i + 1 in all)
    && (forall j :: j in all && j > 0 ==> j - 1 in later)
  }

  lemma {:induction false} ShiftedCount(later: set<nat>, all: set<nat>)
    requires Shifted(later, all)
    ensures |all| == |later| + if 0 in all then 1 else 0
    decreases later
  {
    if later == {} {
      OnlyZero(all);
    } else {
      var i :| i in later;
      ShiftedLess(later, all, i);
      ShiftedCount(later - {i}, all - {i + 1});
    }
  }

  lemma OnlyZero(all: set<nat>)
    requires Shifted({}, all)
    ensures |all| == if 0 in all then 1 else 0
  {
    assert all == if 0 in all then {0} else {};
  }

  lemma ShiftedLess(later: set<nat>, all: set<nat>, i: nat)
    requires Shifted(later, all) && i in later
    ensures Shifted(later - {i}, all - {i + 1}) && i + 1 in all
  {}

  lemma StartsShift(c: Option<PemCapture>, lines: seq<string>)
    requires lines != []
    ensures Shifted(BlockStarts(Record(c, lines[0]).state, lines[1..]), BlockStarts(c, lines))
  {
    var later, all := BlockStarts(Record(c, lines[0]).state, lines[1..]), BlockStarts(c, lines);
    forall i | i in later ensures i + 1 in all { StateStep(c, lines, i + 1); }
    forall j | j in all && j > 0 ensures j - 1 in later { StateStep(c, lines, j); }
  }

  lemma PlainShift(c: Option<PemCapture>, lines: seq<string>)
    requires lines != []
    ensures Shifted(PlainLines(Record(c, lines[0]).state, lines[1..]), PlainLines(c, lines))
  {
    var later, all := PlainLines(Record(c, lines[0]).state, lines[1..]), PlainLines(c, lines);
    forall i | i in later ensures i + 1 in all { StateStep(c, lines, i + 1); }
    forall j | j in all && j > 0 ensures j - 1 in later { StateStep(c, lines, j); }
  }

  /** What the first line contributes. */
  lemma FirstRecord(c: Option<PemCapture>, lines: seq<string>)
    requires lines != []
    ensures 0 in BlockStarts(c, lines) <==> c.None? && OpensOne(lines[0])
    ensures 0 in PlainLines(c, lines) <==> c.None? && !OpensOne(lines[0]) && Trim(lines[0]) != []
    ensures |Record(c, lines[0]).emit| + (if Record(c, lines[0]).state.Some? then 1 else 0) ==
            (if c.Some? || OpensOne(lines[0]) || Trim(lines[0]) != [] then 1 else 0)
  {
    assert lines[..0] == [];
    OpensMeans(lines[0]);
    if c.None? && FindHeader(lines[0]).Some? { HeaderNotBlank(lines[0]); }
  }

  /** One record for each multi-line block, closed or still open at the end, and one for each line
      outside them that is not blank. */
  lemma {:induction false} RecordCount(c: Option<PemCapture>, lines: seq<string>)
    ensures |Records(c, lines)| ==
            |BlockStarts(c, lines)| + |PlainLines(c, lines)| + if c.Some? then 1 else 0
    decreases |lines|
  {
    if lines == [] {
      assert BlockStarts(c, lines) == {} && PlainLines(c, lines) == {};
    } else {
      var next, rest := Record(c, lines[0]).state, lines[1..];
      RecordCount(next, rest);
      StartsShift(c, lines);
      PlainShift(c, lines);
      ShiftedCount(BlockStarts(next, rest), BlockStarts(c, lines));
      ShiftedCount(PlainLines(next, rest), PlainLines(c, lines));
      FirstRecord(c, lines);
    }
  }

  /** A block that ends on its own line is emitted as that line, which its dashes keep from being blank. */
  lemma {:induction false} HeaderNotBlank(line: string)
    requires FindHeader(line).Some?
    ensures Trim(line) != []
  {
    var i := HeaderDash(line);
    TrimStartKeeps(line, i);
    var j := KeptBy(line, i);
    TrimEndKeeps(TrimStart(line), j);
  }

  lemma {:induction false} HeaderDash(line: string) returns (i: nat)
    requires FindHeader(line).Some?
    ensures i < |line| && line[i] == '-'
  {
    if HeaderAtFront(line) {
      i := 0;
      assert line[0] == BEGIN[0];
    } else {
      var j := HeaderDash(line[1..]);
      i := j + 1;
    }
  }

  lemma {:induction false} TrimStartKeeps(s: string, i: nat)
    requires i < |s| && !IsSpace(s[i])
    ensures s[i] in TrimStart(s)
  {
    if IsSpace(s[0]) { TrimStartKeeps(s[1..], i - 1); }
  }

  lemma KeptBy(s: string, i: nat) returns (j: nat)
    requires i < |s| && s[i] in TrimStart(s)
    ensures j < |TrimStart(s)| && TrimStart(s)[j] == s[i]
  {
    j :| 0 <= j < |TrimStart(s)| && TrimStart(s)[j] == s[i];
  }

  lemma {:induction false} TrimEndKeeps(s: string, i: nat)
    requires i < |s| && !IsSpace(s[i])
    ensures s[i] in TrimEnd(s)
  {
    if IsSpace(s[|s| - 1]) { TrimEndKeeps(s[..|s| - 1], i); }
  }
}
