/** The line counter of a reported file change, and the unified-diff printer it inverts. */
module DiffCounts {
  import opened Options
  import opened Splitting

  datatype Counts = Counts(added: nat, deleted: nat)

  const GIT := "diff --git "

  predicate IsHunkHeader(line: string) { |line| >= 2 && line[0] == line[1] == '@' }

  predicate IsGitHeader(line: string) { GIT <= line }

  /** Three characters, then a separator or the end of the line. */
  predicate IsHeaderHalf(line: string, mark: char) {
    && |line| >= 3 && line[0] == line[1] == line[2] == mark
    && (|line| == 3 || line[3] == ' ' || line[3] == '\t')
  }

  predicate IsOldHeader(line: string) { IsHeaderHalf(line, '-') }

  predicate IsNewHeader(line: string) { IsHeaderHalf(line, '+') }

  predicate StartsWith(line: string, mark: char) { line != [] && line[0] == mark }

  /** Every line of a text, the last one included whether or not a line feed ends it. */
  function AllLines(diff: string): (lines: seq<string>)
    ensures |lines| > 0
  {
    Lines(diff, '\n') + [Tail(diff, '\n')]
  }

  /** Everything the reader can tell about one line. `OldHalf` and `NewHalf` are only shapes: such a
      line is a header where it stands in a header section as half of a pair, and content elsewhere. */
  datatype Kind = HunkStart | GitStart | OldHalf | NewHalf | Plus | Minus | Other

  function KindOf(line: string): Kind {
    if StartsWith(line, '-') then if IsOldHeader(line) then OldHalf else Minus
    else if StartsWith(line, '+') then if IsNewHeader(line) then NewHalf else Plus
    else if IsHunkHeader(line) then HunkStart
    else if IsGitHeader(line) then GitStart
    else Other
  }

  /** What a line's kind says about every question the reader asks of it. */
  ghost predicate Shape(line: string, kind: Kind) {
    && (IsHunkHeader(line) <==> kind == HunkStart)
    && (IsGitHeader(line) <==> kind == GitStart)
    && (IsOldHeader(line) <==> kind == OldHalf)
    && (IsNewHeader(line) <==> kind == NewHalf)
    && (StartsWith(line, '+') <==> kind.NewHalf? || kind.Plus?)
    && (StartsWith(line, '-') <==> kind.OldHalf? || kind.Minus?)
  }

  lemma KindSays(line: string)
    ensures Shape(line, KindOf(line))
  {
    if GIT <= line { assert line[0] == GIT[0]; }
  }

  function Kinds(lines: seq<string>): (kinds: seq<Kind>)
    ensures |kinds| == |lines|
  {
    if lines == [] then [] else [KindOf(lines[0])] + Kinds(lines[1..])
  }

  /** Where the lines read so far leave a reader: in a header section, one line after the `---` half
      of what may be a header pair, or in content. */
  datatype Place = InHeader | AfterOldHalf | InContent

  /** Where one line leaves the reader. */
  function Next(place: Place, kind: Kind): Place {
    if kind == OldHalf && place == InHeader then AfterOldHalf
    else if kind == GitStart || (kind == NewHalf && place == AfterOldHalf) || (kind == Other && place == InHeader) then
      InHeader
    else InContent
  }

  /** What a line adds, once it is read. */
  function Adds(place: Place, kind: Kind): nat {
    if kind == Plus || (kind == NewHalf && place != AfterOldHalf) then 1 else 0
  }

  /** What is known to be removed once a line is read. A `---` line in a header section counts only
      when the next line turns out not to complete it. */
  function Removes(place: Place, kind: Kind): nat {
    (if kind != NewHalf then Owing(place) else 0) +
    (if kind == Minus || (kind == OldHalf && place != InHeader) then 1 else 0)
  }

  /** The removal a `---` half turns out to be when nothing completes it. */
  function Owing(place: Place): nat {
    if place == AfterOldHalf then 1 else 0
  }

  /** The state a reader with transition `next` reaches. */
  function After<S, K>(next: (S, K) -> S, s: S, ks: seq<K>): S
    decreases |ks|
  {
    if ks == [] then s else After(next, next(s, ks[0]), ks[1..])
  }

  /** What it counts on the way, at `cost` a step. */
  function Along<S, K>(next: (S, K) -> S, cost: (S, K) -> nat, s: S, ks: seq<K>): nat
    decreases |ks|
  {
    if ks == [] then 0 else cost(s, ks[0]) + Along(next, cost, next(s, ks[0]), ks[1..])
  }

  /** Reading can stop anywhere and resume from the state alone. */
  lemma {:induction false} AlongBoth<S, K>(next: (S, K) -> S, cost: (S, K) -> nat, s: S, a: seq<K>, b: seq<K>)
    ensures After(next, s, a + b) == After(next, After(next, s, a), b)
    ensures Along(next, cost, s, a + b) == Along(next, cost, s, a) + Along(next, cost, After(next, s, a), b)
    decreases |a|
  {
    if a == [] {
      assert a + b == b;
    } else {
      assert (a + b)[1..] == a[1..] + b;
      AlongBoth(next, cost, next(s, a[0]), a[1..], b);
    }
  }

  lemma OneStep<S, K>(next: (S, K) -> S, cost: (S, K) -> nat, s: S, k: K)
    ensures After(next, s, [k]) == next(s, k) && Along(next, cost, s, [k]) == cost(s, k)
  {
    assert [k][1..] == [];
  }

  function PlaceAfter(place: Place, kinds: seq<Kind>): Place {
    After(Next, place, kinds)
  }

  function AddedBy(place: Place, kinds: seq<Kind>): nat {
    Along(Next, Adds, place, kinds)
  }

  function RemovedBy(place: Place, kinds: seq<Kind>): nat {
    Along(Next, Removes, place, kinds)
  }

  /** What the lines from here to the end remove. */
  function RemovedFrom(place: Place, kinds: seq<Kind>): nat {
    RemovedBy(place, kinds) + Owing(PlaceAfter(place, kinds))
  }

  /** What a whole diff adds and removes. */
  function CountOf(diff: string): Counts {
    var kinds := Kinds(AllLines(diff));
    Counts(AddedBy(InHeader, kinds), RemovedFrom(InHeader, kinds))
  }

  lemma {:induction false} KindsAt(lines: seq<string>, i: nat)
    requires i < |lines|
    ensures Kinds(lines)[i] == KindOf(lines[i])
  {
    if i > 0 { KindsAt(lines[1..], i - 1); }
  }

  lemma {:induction false} KindsAppend(a: seq<string>, b: seq<string>)
    ensures Kinds(a + b) == Kinds(a) + Kinds(b)
  {
    if a == [] {
      assert a + b == b;
    } else {
      assert (a + b)[1..] == a[1..] + b;
      KindsAppend(a[1..], b);
    }
  }

  lemma BothRead(place: Place, a: seq<Kind>, b: seq<Kind>)
    ensures PlaceAfter(place, a + b) == PlaceAfter(PlaceAfter(place, a), b)
    ensures AddedBy(place, a + b) == AddedBy(place, a) + AddedBy(PlaceAfter(place, a), b)
    ensures RemovedBy(place, a + b) == RemovedBy(place, a) + RemovedBy(PlaceAfter(place, a), b)
  {
    AlongBoth(Next, Adds, place, a, b);
    AlongBoth(Next, Removes, place, a, b);
  }

  lemma OneKind(place: Place, kind: Kind)
    ensures PlaceAfter(place, [kind]) == Next(place, kind)
    ensures AddedBy(place, [kind]) == Adds(place, kind)
    ensures RemovedBy(place, [kind]) == Removes(place, kind)
  {
    OneStep(Next, Adds, place, kind);
    OneStep(Next, Removes, place, kind);
  }

  /** The one-pass reader, with its look-ahead. */
  method DiffCounts(diff: string) returns (counts: Counts)
    ensures counts == CountOf(diff)
  {
    var lines := AllLines(diff);
    ghost var kinds := Kinds(lines);
    var added, deleted := 0, 0;
    var inHeaderSection, paired := true, false;
    var index := 0;
    while index < |lines|
      invariant 0 <= index <= |lines|
      invariant paired ==> index < |lines| && inHeaderSection && kinds[index] == NewHalf
      invariant added + AddedBy(PlaceOf(inHeaderSection, paired), kinds[index..]) == CountOf(diff).added
      invariant deleted + RemovedFrom(PlaceOf(inHeaderSection, paired), kinds[index..]) == CountOf(diff).deleted
    {
      var line := lines[index];
      var next := if index + 1 < |lines| then lines[index + 1] else "";
      ReadNext(lines, index, PlaceOf(inHeaderSection, paired));
      if index + 1 < |lines| { LookAhead(lines, index); }
      if paired {
        paired := false;
      } else if IsHunkHeader(line) {
        inHeaderSection := false;
      } else if IsGitHeader(line) {
        inHeaderSection := true;
      } else if inHeaderSection && IsOldHeader(line) && IsNewHeader(next) {
        paired := true;
      } else if StartsWith(line, '+') {
        added := added + 1;
        inHeaderSection := false;
      } else if StartsWith(line, '-') {
        deleted := deleted + 1;
        inHeaderSection := false;
      }
      index := index + 1;
    }
    counts := Counts(added, deleted);
  }

  ghost function PlaceOf(inHeaderSection: bool, paired: bool): Place {
    if paired then AfterOldHalf else if inHeaderSection then InHeader else InContent
  }

  /** One step of the reader. */
  lemma ReadNext(lines: seq<string>, index: nat, place: Place)
    requires index < |lines|
    ensures var kinds := Kinds(lines);
            var kind, rest := kinds[index], kinds[index + 1..];
            && Shape(lines[index], kind)
            && AddedBy(place, kinds[index..]) == Adds(place, kind) + AddedBy(Next(place, kind), rest)
            && RemovedFrom(place, kinds[index..]) == Removes(place, kind) + RemovedFrom(Next(place, kind), rest)
  {
    var kinds := Kinds(lines);
    KindsAt(lines, index);
    KindSays(lines[index]);
    assert kinds[index..] == [kinds[index]] + kinds[index + 1..];
    BothRead(place, [kinds[index]], kinds[index + 1..]);
    OneKind(place, kinds[index]);
  }

  /** Looking ahead: for a `---` line that nothing completes, waiting one line to count it makes no
      difference. */
  lemma LookAhead(lines: seq<string>, index: nat)
    requires index + 1 < |lines|
    ensures var kinds := Kinds(lines);
            var rest := kinds[index + 1..];
            && (IsNewHeader(lines[index + 1]) <==> kinds[index + 1] == NewHalf)
            && (kinds[index + 1] != NewHalf ==>
                AddedBy(AfterOldHalf, rest) == AddedBy(InContent, rest) &&
                RemovedFrom(AfterOldHalf, rest) == 1 + RemovedFrom(InContent, rest))
  {
    KindsAt(lines, index + 1);
    KindSays(lines[index + 1]);
    var rest := Kinds(lines)[index + 1..];
    assert rest[0] == Kinds(lines)[index + 1];
    if rest[0] != NewHalf { UnpairedHalf(rest); }
  }

  lemma UnpairedHalf(rest: seq<Kind>)
    requires rest != [] && rest[0] != NewHalf
    ensures AddedBy(AfterOldHalf, rest) == AddedBy(InContent, rest)
    ensures RemovedFrom(AfterOldHalf, rest) == 1 + RemovedFrom(InContent, rest)
  {
    assert rest == [rest[0]] + rest[1..];
    BothRead(AfterOldHalf, [rest[0]], rest[1..]);
    BothRead(InContent, [rest[0]], rest[1..]);
    OneKind(AfterOldHalf, rest[0]);
    OneKind(InContent, rest[0]);
  }

  /** A unified diff, as a printer sees one. */
  datatype Edit = Context(text: string) | Added(text: string) | Deleted(text: string) | NoNewline

  datatype Hunk = Hunk(ranges: string, edits: seq<Edit>)

  /** What follows the three characters of a file header: nothing, or a separator and a name. */
  datatype HeaderName = Bare | Spaced(name: string) | Tabbed(name: string)

  datatype Extended =
    | Index(text: string)
    | OldMode(text: string)
    | NewMode(text: string)
    | NewFileMode(text: string)
    | DeletedFileMode(text: string)
    | RenameFrom(text: string)
    | RenameTo(text: string)
    | CopyFrom(text: string)
    | CopyTo(text: string)
    | Similarity(text: string)
    | Dissimilarity(text: string)
    | BinaryFiles(text: string)

  datatype FilePatch = FilePatch(
    git: Option<string>,
    extended: seq<Extended>,
    header: Option<(HeaderName, HeaderName)>,
    hunks: seq<Hunk>)

  function EditLine(edit: Edit): string {
    match edit
    case Context(text) => [' '] + text
    case Added(text) => ['+'] + text
    case Deleted(text) => ['-'] + text
    case NoNewline => "\\ No newline at end of file"
  }

  function EditLines(edits: seq<Edit>): seq<string> {
    if edits == [] then [] else [EditLine(edits[0])] + EditLines(edits[1..])
  }

  function HunkLines(hunks: seq<Hunk>): seq<string> {
    if hunks == [] then [] else ["@@" + hunks[0].ranges] + EditLines(hunks[0].edits) + HunkLines(hunks[1..])
  }

  function GitLines(git: Option<string>): seq<string> {
    if git.None? then [] else ["diff --git " + git.value]
  }

  function ExtendedLine(extended: Extended): string {
    match extended
    case Index(text) => "index " + text
    case OldMode(text) => "old mode " + text
    case NewMode(text) => "new mode " + text
    case NewFileMode(text) => "new file mode " + text
    case DeletedFileMode(text) => "deleted file mode " + text
    case RenameFrom(text) => "rename from " + text
    case RenameTo(text) => "rename to " + text
    case CopyFrom(text) => "copy from " + text
    case CopyTo(text) => "copy to " + text
    case Similarity(text) => "similarity index " + text
    case Dissimilarity(text) => "dissimilarity index " + text
    case BinaryFiles(text) => "Binary files " + text
  }

  function ExtendedLines(extended: seq<Extended>): seq<string> {
    if extended == [] then [] else [ExtendedLine(extended[0])] + ExtendedLines(extended[1..])
  }

  function HeaderHalf(mark: char, name: HeaderName): string {
    match name
    case Bare => [mark, mark, mark]
    case Spaced(text) => [mark, mark, mark, ' '] + text
    case Tabbed(text) => [mark, mark, mark, '\t'] + text
  }

  function HeaderLines(header: Option<(HeaderName, HeaderName)>): seq<string> {
    if header.None? then [] else [HeaderHalf('-', header.value.0), HeaderHalf('+', header.value.1)]
  }

  function FileLines(file: FilePatch): seq<string> {
    GitLines(file.git) + ExtendedLines(file.extended) + HeaderLines(file.header) + HunkLines(file.hunks)
  }

  function PatchLines(files: seq<FilePatch>): seq<string> {
    if files == [] then [] else FileLines(files[0]) + PatchLines(files[1..])
  }

  function EditsAdd(edits: seq<Edit>): nat {
    if edits == [] then 0 else (if edits[0].Added? then 1 else 0) + EditsAdd(edits[1..])
  }

  function EditsRemove(edits: seq<Edit>): nat {
    if edits == [] then 0 else (if edits[0].Deleted? then 1 else 0) + EditsRemove(edits[1..])
  }

  function HunksAdd(hunks: seq<Hunk>): nat {
    if hunks == [] then 0 else EditsAdd(hunks[0].edits) + HunksAdd(hunks[1..])
  }

  function HunksRemove(hunks: seq<Hunk>): nat {
    if hunks == [] then 0 else EditsRemove(hunks[0].edits) + HunksRemove(hunks[1..])
  }

  function FilesAdd(files: seq<FilePatch>): nat {
    if files == [] then 0 else HunksAdd(files[0].hunks) + FilesAdd(files[1..])
  }

  function FilesRemove(files: seq<FilePatch>): nat {
    if files == [] then 0 else HunksRemove(files[0].hunks) + FilesRemove(files[1..])
  }

  /** The header section is open where this file starts its `---` line. */
  predicate Opened(file: FilePatch, inHeaderSection: bool) {
    inHeaderSection || file.git.Some?
  }

  /** How many `---`/`+++` pairs come after content with no `diff --git` line to reopen a header
      section: each is read as one line removed and one added. */
  function Misread(files: seq<FilePatch>, inHeaderSection: bool): nat {
    if files == [] then 0
    else
      var open := Opened(files[0], inHeaderSection);
      (if files[0].header.Some? && !open then 1 else 0) +
      Misread(files[1..], open && files[0].hunks == [])
  }

  /** The shapes the reader goes by, in so many words. */
  lemma Recognises(line: string)
    ensures IsHunkHeader(line) <==> "@@" <= line
    ensures IsGitHeader(line) <==> "diff --git " <= line
    ensures IsOldHeader(line) <==> line == "---" || "--- " <= line || "---\t" <= line
    ensures IsNewHeader(line) <==> line == "+++" || "+++ " <= line || "+++\t" <= line
  {}

  lemma GitKind(text: string)
    ensures KindOf("diff --git " + text) == GitStart
  {
    KindSays("diff --git " + text);
  }

  lemma HunkKind(text: string)
    ensures KindOf("@@" + text) == HunkStart
  {}

  lemma HalfKind(name: HeaderName)
    ensures KindOf(HeaderHalf('-', name)) == OldHalf && KindOf(HeaderHalf('+', name)) == NewHalf
  {}

  /** An extended header line resembles nothing the reader knows. */
  lemma ExtendedKind(extended: Extended)
    ensures KindOf(ExtendedLine(extended)) == Other
  {
    var line := ExtendedLine(extended);
    assert GIT[0] == 'd' && GIT[1] == 'i' && GIT[2] == 'f';
    match extended {
      case DeletedFileMode(_) => assert line[1] == 'e';
      case Dissimilarity(_) => assert line[2] == 's';
      case _ => assert line[0] != 'd' && line[0] != '@';
    }
  }

  lemma ContentKind(edit: Edit)
    ensures var kind := KindOf(EditLine(edit));
            match edit
            case Added(_) => kind.Plus? || kind.NewHalf?
            case Deleted(_) => kind.Minus? || kind.OldHalf?
            case _ => kind.Other?
  {}

  /** A block of lines moves the reader from one place to another, counting so much on the way. */
  ghost predicate Reads(before: Place, lines: seq<string>, added: nat, removed: nat, after: Place) {
    && PlaceAfter(before, Kinds(lines)) == after
    && AddedBy(before, Kinds(lines)) == added
    && RemovedBy(before, Kinds(lines)) == removed
  }

  lemma ReadsBoth(before: Place, a: seq<string>, b: seq<string>, added: nat, removed: nat, mid: Place,
                  added': nat, removed': nat, after: Place)
    requires Reads(before, a, added, removed, mid) && Reads(mid, b, added', removed', after)
    ensures Reads(before, a + b, added + added', removed + removed', after)
  {
    KindsAppend(a, b);
    BothRead(before, Kinds(a), Kinds(b));
  }

  lemma OneRead(before: Place, line: string, kind: Kind)
    requires KindOf(line) == kind
    ensures Reads(before, [line], Adds(before, kind), Removes(before, kind), Next(before, kind))
  {
    assert [line][1..] == [];
    assert Kinds([line]) == [kind];
    OneKind(before, kind);
  }

  /** Once content has begun no line is a header, whatever it looks like. */
  lemma {:induction false} EditsRead(edits: seq<Edit>)
    ensures Reads(InContent, EditLines(edits), EditsAdd(edits), EditsRemove(edits), InContent)
  {
    if edits != [] {
      var line := EditLine(edits[0]);
      EditsRead(edits[1..]);
      ContentKind(edits[0]);
      OneRead(InContent, line, KindOf(line));
      ReadsBoth(InContent, [line], EditLines(edits[1..]), if edits[0].Added? then 1 else 0,
        if edits[0].Deleted? then 1 else 0, InContent,
        EditsAdd(edits[1..]), EditsRemove(edits[1..]), InContent);
    }
  }

  /** Any hunk starts content; without one the place stays. */
  lemma {:induction false} HunksRead(hunks: seq<Hunk>, before: Place)
    requires before != AfterOldHalf
    ensures Reads(before, HunkLines(hunks), HunksAdd(hunks), HunksRemove(hunks),
              if hunks == [] then before else InContent)
    decreases |hunks|
  {
    if hunks != [] {
      var first, content := ["@@" + hunks[0].ranges], hunks[0].edits;
      HunksRead(hunks[1..], InContent);
      EditsRead(content);
      HunkKind(hunks[0].ranges);
      OneRead(before, "@@" + hunks[0].ranges, HunkStart);
      ReadsBoth(before, first, EditLines(content), 0, 0, InContent, EditsAdd(content), EditsRemove(content), InContent);
      ReadsBoth(before, first + EditLines(content), HunkLines(hunks[1..]), EditsAdd(content), EditsRemove(content),
        InContent, HunksAdd(hunks[1..]), HunksRemove(hunks[1..]), InContent);
    }
  }

  lemma {:induction false} ExtendedRead(extended: seq<Extended>, before: Place)
    requires before != AfterOldHalf
    ensures Reads(before, ExtendedLines(extended), 0, 0, before)
  {
    if extended != [] {
      var line := ExtendedLine(extended[0]);
      ExtendedRead(extended[1..], before);
      ExtendedKind(extended[0]);
      OneRead(before, line, Other);
      ReadsBoth(before, [line], ExtendedLines(extended[1..]), 0, 0, before, 0, 0, before);
    }
  }

  /** A header pair, and how many lines too many it counts each way in the wrong place. */
  lemma HeaderRead(header: Option<(HeaderName, HeaderName)>, before: Place)
    requires before != AfterOldHalf
    ensures var misread := if header.Some? && before == InContent then 1 else 0;
            Reads(before, HeaderLines(header), misread, misread, before)
  {
    if header.Some? {
      var lower, upper := HeaderHalf('-', header.value.0), HeaderHalf('+', header.value.1);
      var misread, mid := if before == InContent then 1 else 0, Next(before, OldHalf);
      HalfKind(header.value.0);
      HalfKind(header.value.1);
      OneRead(before, lower, OldHalf);
      OneRead(mid, upper, NewHalf);
      ReadsBoth(before, [lower], [upper], 0, misread, mid, misread, 0, before);
      assert HeaderLines(header) == [lower] + [upper];
    }
  }

  ghost function PlaceIf(open: bool): Place {
    if open then InHeader else InContent
  }

  lemma FileRead(file: FilePatch, wasOpen: bool)
    ensures var open := Opened(file, wasOpen);
            var misread := if file.header.Some? && !open then 1 else 0;
            Reads(PlaceIf(wasOpen), FileLines(file), misread + HunksAdd(file.hunks), misread + HunksRemove(file.hunks),
              PlaceIf(open && file.hunks == []))
  {
    var open := Opened(file, wasOpen);
    var before, place := PlaceIf(wasOpen), PlaceIf(open);
    var misread := if file.header.Some? && !open then 1 else 0;
    if file.git.Some? {
      GitKind(file.git.value);
      OneRead(before, "diff --git " + file.git.value, GitStart);
    }
    ExtendedRead(file.extended, place);
    ReadsBoth(before, GitLines(file.git), ExtendedLines(file.extended), 0, 0, place, 0, 0, place);
    HeaderRead(file.header, place);
    ReadsBoth(before, GitLines(file.git) + ExtendedLines(file.extended), HeaderLines(file.header), 0, 0, place, misread, misread, place);
    HunksRead(file.hunks, place);
    ReadsBoth(before, GitLines(file.git) + ExtendedLines(file.extended) + HeaderLines(file.header), HunkLines(file.hunks),
      misread, misread, place, HunksAdd(file.hunks), HunksRemove(file.hunks), PlaceIf(open && file.hunks == []));
  }

  lemma {:induction false} PatchRead(files: seq<FilePatch>, wasOpen: bool) returns (after: Place)
    ensures var m := Misread(files, wasOpen);
            Reads(PlaceIf(wasOpen), PatchLines(files), FilesAdd(files) + m, FilesRemove(files) + m, after)
    ensures after != AfterOldHalf
    decreases |files|
  {
    if files == [] {
      after := PlaceIf(wasOpen);
    } else {
      var open := Opened(files[0], wasOpen);
      var still := open && files[0].hunks == [];
      var misread, m := if files[0].header.Some? && !open then 1 else 0, Misread(files[1..], still);
      FileRead(files[0], wasOpen);
      after := PatchRead(files[1..], still);
      ReadsBoth(PlaceIf(wasOpen), FileLines(files[0]), PatchLines(files[1..]),
        misread + HunksAdd(files[0].hunks), misread + HunksRemove(files[0].hunks), PlaceIf(still),
        FilesAdd(files[1..]) + m, FilesRemove(files[1..]) + m, after);
    }
  }

  /** The text of a patch, with or without a line feed after its last line. */
  function Text(files: seq<FilePatch>, endsInLineFeed: bool): string {
    var lines := PatchLines(files);
    if endsInLineFeed || lines == [] then Unsplit(lines, [], '\n')
    else Unsplit(lines[..|lines| - 1], lines[|lines| - 1], '\n')
  }

  /** No line of the patch holds a line feed: what makes it a list of lines at all. */
  ghost predicate OneLineEach(files: seq<FilePatch>) {
    Free(PatchLines(files), '\n')
  }

  /** For every patch whatsoever the count is the true total, plus one of each kind for every header read as
      content, and content itself never matters. */
  lemma CountInvertsPrinting(files: seq<FilePatch>, endsInLineFeed: bool)
    requires OneLineEach(files)
    ensures var m := Misread(files, true);
            CountOf(Text(files, endsInLineFeed)) == Counts(FilesAdd(files) + m, FilesRemove(files) + m)
  {
    var after := PatchRead(files, true);
    TextCount(files, endsInLineFeed);
  }

  /** A text counts as its lines do: a last line feed adds only an empty line. */
  lemma TextCount(files: seq<FilePatch>, endsInLineFeed: bool)
    requires OneLineEach(files)
    ensures CountOf(Text(files, endsInLineFeed)).added == AddedBy(InHeader, Kinds(PatchLines(files)))
    ensures CountOf(Text(files, endsInLineFeed)).deleted == RemovedFrom(InHeader, Kinds(PatchLines(files)))
  {
    TextLines(files, endsInLineFeed);
    TrailingBlank(PatchLines(files));
  }

  /** So the count is exact if and only if every header either starts a file that names itself with
      `diff --git`, or follows no content yet. */
  lemma ExactCounts(files: seq<FilePatch>, endsInLineFeed: bool)
    requires OneLineEach(files)
    ensures CountOf(Text(files, endsInLineFeed)) == Counts(FilesAdd(files), FilesRemove(files)) <==>
            EveryHeaderOpens(files)
  {
    CountInvertsPrinting(files, endsInLineFeed);
    NothingMisread(files);
  }

  lemma TextLines(files: seq<FilePatch>, endsInLineFeed: bool)
    requires OneLineEach(files)
    ensures var all := AllLines(Text(files, endsInLineFeed));
            all == PatchLines(files) || all == PatchLines(files) + [""]
  {
    var lines := PatchLines(files);
    if endsInLineFeed || lines == [] {
      SplitInvertsUnsplit(lines, [], '\n');
    } else {
      var init, last := lines[..|lines| - 1], lines[|lines| - 1];
      assert lines == init + [last];
      LastLineApart(init, last);
    }
  }

  lemma LastLineApart(init: seq<string>, last: string)
    requires Free(init + [last], '\n')
    ensures AllLines(Unsplit(init, last, '\n')) == init + [last]
  {
    FreeInit(init, last);
    SplitInvertsUnsplit(init, last, '\n');
  }

  lemma FreeInit(init: seq<string>, last: string)
    requires Free(init + [last], '\n')
    ensures Free(init, '\n') && '\n' !in last
  {
    assert (init + [last])[|init|] == last;
    forall i | 0 <= i < |init| ensures '\n' !in init[i] { assert (init + [last])[i] == init[i]; }
  }

  /** The empty line after a last line feed counts nothing. */
  lemma TrailingBlank(lines: seq<string>)
    ensures AddedBy(InHeader, Kinds(lines + [""])) == AddedBy(InHeader, Kinds(lines))
    ensures RemovedFrom(InHeader, Kinds(lines + [""])) == RemovedFrom(InHeader, Kinds(lines))
  {
    KindsAppend(lines, [""]);
    assert [""][1..] == [];
    assert Kinds([""]) == [Other];
    BothRead(InHeader, Kinds(lines), [Other]);
    OneKind(PlaceAfter(InHeader, Kinds(lines)), Other);
  }

  /** The file names itself, or nothing but other headers has been printed before it. */
  predicate HeaderSectionOpen(files: seq<FilePatch>, i: nat)
    requires i < |files|
  {
    files[i].git.Some? || i == 0 || (files[i - 1].hunks == [] && HeaderSectionOpen(files, i - 1))
  }

  ghost predicate EveryHeaderOpens(files: seq<FilePatch>) {
    forall i :: 0 <= i < |files| && files[i].header.Some? ==> HeaderSectionOpen(files, i)
  }

  lemma NothingMisread(files: seq<FilePatch>)
    ensures Misread(files, true) == 0 <==>
            EveryHeaderOpens(files)
  {
    MisreadFrom(files, 0);
    assert files[0..] == files;
  }

  /** The header section's state on entry to file `k`. */
  predicate OpenOnEntry(files: seq<FilePatch>, k: nat)
    requires k <= |files|
  {
    k == 0 || (HeaderSectionOpen(files, k - 1) && files[k - 1].hunks == [])
  }

  lemma {:induction false} MisreadFrom(files: seq<FilePatch>, k: nat)
    requires k <= |files|
    ensures Misread(files[k..], OpenOnEntry(files, k)) == 0 <==>
            forall i :: k <= i < |files| && files[i].header.Some? ==> HeaderSectionOpen(files, i)
    decreases |files| - k
  {
    if k < |files| {
      MisreadFrom(files, k + 1);
      assert files[k..][1..] == files[k + 1..];
      assert Opened(files[k], OpenOnEntry(files, k)) == HeaderSectionOpen(files, k);
    }
  }

  /** The counts of concatenated texts add up, whatever the texts are, as long as the first ends its
      last line and the second starts with `diff --git`. */
  lemma ConcatenationAdds(first: string, second: string)
    requires Tail(first, '\n') == [] && GIT <= second
    ensures CountOf(first + second) ==
            Counts(CountOf(first).added + CountOf(second).added, CountOf(first).deleted + CountOf(second).deleted)
  {
    var a, b := Lines(first, '\n'), AllLines(second);
    LinesAdd(first, second);
    TrailingBlank(a);
    KindsAppend(a, b);
    BothRead(InHeader, Kinds(a), Kinds(b));
    FirstLine(second);
    KindSays(b[0]);
    GitReopens(PlaceAfter(InHeader, Kinds(a)), Kinds(b));
  }

  lemma LinesAdd(first: string, second: string)
    requires Tail(first, '\n') == []
    ensures AllLines(first) == Lines(first, '\n') + [""]
    ensures AllLines(first + second) == Lines(first, '\n') + AllLines(second)
  {
    SplitResumes(first, second, '\n');
    assert Tail(first, '\n') + second == second;
    var lines, tail := Lines(second, '\n'), [Tail(second, '\n')];
    assert (Lines(first, '\n') + lines) + tail == Lines(first, '\n') + (lines + tail);
  }

  /** A `diff --git` line puts every reader where a fresh one starts, settling what it owed. */
  lemma GitReopens(place: Place, kinds: seq<Kind>)
    requires kinds != [] && kinds[0] == GitStart
    ensures AddedBy(place, kinds) == AddedBy(InHeader, kinds)
    ensures RemovedFrom(place, kinds) == Owing(place) + RemovedFrom(InHeader, kinds)
  {
    assert kinds == [GitStart] + kinds[1..];
    BothRead(place, [GitStart], kinds[1..]);
    BothRead(InHeader, [GitStart], kinds[1..]);
    OneKind(place, GitStart);
    OneKind(InHeader, GitStart);
  }

  lemma FirstLine(text: string)
    requires GIT <= text
    ensures GIT <= AllLines(text)[0]
  {
    if '\n' in text {
      var i := Find(text, '\n');
      forall k | 0 <= k < |GIT| ensures text[k] != '\n' { assert text[k] == GIT[k]; }
    }
  }

  const FIRST_BARE_FILE := FilePatch(None, [], None, [Hunk(" -0,0 +1 @@", [Added("x")])])
  const SECOND_BARE_FILE := FilePatch(None, [], Some((Spaced("a"), Spaced("b"))), [])

  lemma BareLines()
    ensures FileLines(FIRST_BARE_FILE) == ["@@ -0,0 +1 @@", "+x"]
    ensures FileLines(SECOND_BARE_FILE) == ["--- a", "+++ b"]
  {
    var edits := [Added("x")];
    assert EditLine(edits[0]) == "+x" && edits[1..] == [];
    assert EditLines(edits) == ["+x"];
    assert FIRST_BARE_FILE.hunks == [Hunk(" -0,0 +1 @@", edits)] && FIRST_BARE_FILE.hunks[1..] == [];
    assert "@@" + " -0,0 +1 @@" == "@@ -0,0 +1 @@";
    assert HunkLines(FIRST_BARE_FILE.hunks) == ["@@ -0,0 +1 @@", "+x"];
    assert HeaderHalf('-', Spaced("a")) == "--- a" && HeaderHalf('+', Spaced("b")) == "+++ b";
  }

  lemma BareTotals(files: seq<FilePatch>)
    requires files == [FIRST_BARE_FILE, SECOND_BARE_FILE]
    ensures FilesAdd(files) == 1 && FilesRemove(files) == 0 && Misread(files, true) == 1
  {
    var edits := [Added("x")];
    assert edits[1..] == [] && EditsAdd(edits) == 1 && EditsRemove(edits) == 0;
    var hunks := [Hunk(" -0,0 +1 @@", edits)];
    assert hunks[1..] == [];
    assert HunksAdd(hunks) == 1 && HunksRemove(hunks) == 0;
    assert files[1..] == [SECOND_BARE_FILE] && [SECOND_BARE_FILE][1..] == [];
    assert FilesAdd([SECOND_BARE_FILE]) == 0 && FilesRemove([SECOND_BARE_FILE]) == 0;
    assert Misread([SECOND_BARE_FILE], false) == 1;
  }

  lemma BarePatch(files: seq<FilePatch>)
    requires files == [FIRST_BARE_FILE, SECOND_BARE_FILE]
    ensures PatchLines(files) == ["@@ -0,0 +1 @@", "+x"] + ["--- a", "+++ b"]
  {
    BareLines();
    assert files[1..] == [SECOND_BARE_FILE] && [SECOND_BARE_FILE][1..] == [];
    assert PatchLines([SECOND_BARE_FILE]) == ["--- a", "+++ b"];
  }

  lemma FreeBoth(a: seq<string>, b: seq<string>)
    requires Free(a, '\n') && Free(b, '\n')
    ensures Free(a + b, '\n')
  {}

  /** A second file set off by its header alone is counted one line too many each way. */
  lemma HeaderAloneMiscounts(files: seq<FilePatch>)
    requires files == [FIRST_BARE_FILE, SECOND_BARE_FILE]
    ensures OneLineEach(files)
    ensures FilesAdd(files) == 1 && FilesRemove(files) == 0
    ensures CountOf(Text(files, true)) == Counts(2, 1)
  {
    BarePatch(files);
    FreeBoth(["@@ -0,0 +1 @@", "+x"], ["--- a", "+++ b"]);
    BareTotals(files);
    CountInvertsPrinting(files, true);
  }
}
