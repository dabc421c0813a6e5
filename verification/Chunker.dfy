/** The overlapping line windows of the knowledge chunker (src/knowledge/parser.ts). */
module Chunker {
  import opened Wrappers

  type Line = string

  datatype Chunk = Chunk(ordinal: nat, heading: Option<string>, content: string, lineStart: nat, lineEnd: nat)

  /** Lines start to end, the end not included. */
  datatype Window = Window(start: nat, end: nat)

  function MaxChars(chunkTokens: int): int {
    Max(512, chunkTokens * 4)
  }

  function OverlapChars(chunkTokens: int, overlapTokens: int): int {
    Max(0, Min(MaxChars(chunkTokens) - 1, overlapTokens * 4))
  }

  // ----- Text -----

  /** The characters that trimming removes. */
  predicate IsSpace(c: char) {
    var n := c as int;
    9 <= n <= 13 || n == 0x20 || n == 0xA0 || n == 0x1680 || 0x2000 <= n <= 0x200A
    || n == 0x2028 || n == 0x2029 || n == 0x202F || n == 0x205F || n == 0x3000 || n == 0xFEFF
  }

  predicate Blank(s: string) {
    forall c <- s :: IsSpace(c)
  }

  function TrimStart(s: string): string {
    if |s| > 0 && IsSpace(s[0]) then TrimStart(s[1..]) else s
  }

  function TrimEnd(s: string): string {
    if |s| > 0 && IsSpace(s[|s| - 1]) then TrimEnd(s[..|s| - 1]) else s
  }

  function Trim(s: string): string {
    TrimEnd(TrimStart(s))
  }

  function Join(lines: seq<Line>): string {
    if |lines| == 0 then ""
    else if |lines| == 1 then lines[0]
    else lines[0] + "\n" + Join(lines[1..])
  }

  /** The lines of a text, without their line breaks; there is always at least one. */
  function Split(text: string): (lines: seq<Line>)
    ensures |lines| > 0
  {
    if |text| == 0 then [""]
    else
      var rest := Split(text[1..]);
      if text[0] == '\n' then [""] + rest else [[text[0]] + rest[0]] + rest[1..]
  }

  /** Joining the lines gives the text back, and no line holds a line break. */
  lemma {:induction false} SplitJoins(text: string)
    ensures Join(Split(text)) == text
    ensures forall i :: 0 <= i < |Split(text)| ==> '\n' !in Split(text)[i]
  {
    if |text| > 0 {
      var rest := Split(text[1..]);
      SplitJoins(text[1..]);
      if text[0] == '\n' {
        assert ([""] + rest)[1..] == rest;
        assert Join([""] + rest) == "\n" + Join(rest);
      } else {
        var lines := [[text[0]] + rest[0]] + rest[1..];
        assert lines[1..] == rest[1..];
        assert Join(lines) == [text[0]] + Join(rest);
        assert forall i :: 0 < i < |lines| ==> lines[i] == rest[i];
      }
      assert text == [text[0]] + text[1..];
    }
  }

  function Hashes(line: string): nat {
    if |line| > 0 && line[0] == '#' then 1 + Hashes(line[1..]) else 0
  }

  lemma HashesBound(line: string)
    ensures Hashes(line) <= |line|
  {
  }

  predicate IsSeparator(c: char) {
    c == '\U{2028}' || c == '\U{2029}'
  }

  /**
   * One to six hashes, space, and a text that does not go over a line separator. After two or more
   * spaces and nothing else the text is the last of them, which is trimmed away.
   */
  function MarkdownHeading(line: Line): Option<string> {
    HashesBound(line);
    var n := Hashes(line);
    var rest := TrimStart(line[n..]);
    if !(1 <= n <= 6 && n < |line| && IsSpace(line[n])) then None
    else if rest != "" then (if forall c <- rest :: !IsSeparator(c) then Some(TrimEnd(rest)) else None)
    else if n + 1 < |line| && !IsSeparator(line[|line| - 1]) then Some("")
    else None
  }

  // ----- What trimming and a heading are, character by character -----

  lemma SpacesMean(c: char)
    ensures IsSpace(c) <==>
              c as int in {9, 10, 11, 12, 13, 32, 160, 5760, 8192, 8193, 8194, 8195, 8196, 8197, 8198, 8199, 8200, 8201, 8202,
                           8232, 8233, 8239, 8287, 12288, 65279}
  {
  }

  /** A text with no space at either end. */
  ghost predicate Trimmed(s: string) {
    s != "" ==> !IsSpace(s[0]) && !IsSpace(s[|s| - 1])
  }

  lemma {:induction false} TrimStartOf(blank: string, s: string)
    requires Blank(blank) && (s != "" ==> !IsSpace(s[0]))
    ensures TrimStart(blank + s) == s
  {
    if blank != "" {
      assert (blank + s)[1..] == blank[1..] + s && blank[0] in blank;
      TrimStartOf(blank[1..], s);
    } else {
      assert blank + s == s;
    }
  }

  lemma {:induction false} TrimEndOf(s: string, blank: string)
    requires Blank(blank) && (s != "" ==> !IsSpace(s[|s| - 1]))
    ensures TrimEnd(s + blank) == s
    decreases |blank|
  {
    if blank != "" {
      var init := blank[..|blank| - 1];
      assert (s + blank)[..|s + blank| - 1] == s + init && blank[|blank| - 1] in blank;
      TrimEndOf(s, init);
    } else {
      assert s + blank == s;
    }
  }

  lemma {:induction false} TrimStartSplits(s: string) returns (blank: string)
    ensures s == blank + TrimStart(s) && Blank(blank)
  {
    blank := "";
    if |s| > 0 && IsSpace(s[0]) {
      var rest := TrimStartSplits(s[1..]);
      blank := [s[0]] + rest;
      assert s == [s[0]] + s[1..];
    }
  }

  lemma {:induction false} TrimEndSplits(s: string) returns (blank: string)
    ensures s == TrimEnd(s) + blank && Blank(blank) && (TrimEnd(s) != "" ==> !IsSpace(TrimEnd(s)[|TrimEnd(s)| - 1]))
    decreases |s|
  {
    blank := "";
    if |s| > 0 && IsSpace(s[|s| - 1]) {
      var rest := TrimEndSplits(s[..|s| - 1]);
      blank := rest + [s[|s| - 1]];
      assert s == s[..|s| - 1] + [s[|s| - 1]];
    }
  }

  /** Trimming takes away the space at both ends and nothing else. */
  lemma TrimMeans(s: string) returns (before: string, after: string)
    ensures s == before + Trim(s) + after && Blank(before) && Blank(after) && Trimmed(Trim(s))
  {
    before := TrimStartSplits(s);
    TrimStartBlank(s);
    after := TrimEndSplits(TrimStart(s));
    if Trim(s) != "" {
      assert Trim(s)[0] == TrimStart(s)[0];
    }
  }

  lemma {:induction false} HashesOf(hashes: string, rest: string)
    requires (forall c <- hashes :: c == '#') && (rest != "" ==> rest[0] != '#')
    ensures Hashes(hashes + rest) == |hashes|
  {
    if hashes != "" {
      assert (hashes + rest)[1..] == hashes[1..] + rest && hashes[0] in hashes;
      assert forall c <- hashes[1..] :: c in hashes;
      HashesOf(hashes[1..], rest);
    } else {
      assert hashes + rest == rest;
    }
  }

  lemma {:induction false} HashesStart(line: string)
    ensures Hashes(line) <= |line| && forall c <- line[..Hashes(line)] :: c == '#'
  {
    if |line| > 0 && line[0] == '#' {
      HashesStart(line[1..]);
      assert line[..Hashes(line)] == [line[0]] + line[1..][..Hashes(line) - 1];
    }
  }

  /** One to six hashes, space, a text, and space, with no line separator after the text begins. */
  ghost predicate HeadingParts(line: Line, hashes: string, space: string, text: string, tail: string) {
    && line == hashes + space + text + tail
    && 1 <= |hashes| <= 6 && (forall c <- hashes :: c == '#')
    && space != "" && Blank(space) && Blank(tail) && text != "" && Trimmed(text)
    && forall c <- text + tail :: c != '\U{2028}' && c != '\U{2029}'
  }

  /** A line of these parts is a heading of this text. */
  lemma PartsAreHeading(line: Line, hashes: string, space: string, text: string, tail: string)
    requires HeadingParts(line, hashes, space, text, tail)
    ensures MarkdownHeading(line) == Some(text)
  {
    var rest := space + text + tail;
    assert line == hashes + rest && space[0] in space && rest[0] == space[0];
    SpaceIsNoHash(space[0]);
    HashesOf(hashes, rest);
    assert line[|hashes|..] == rest && rest == space + (text + tail) && (text + tail)[0] == text[0];
    TrimStartOf(space, text + tail);
    TrimEndOf(text, tail);
  }

  lemma SpaceIsNoHash(c: char)
    requires IsSpace(c)
    ensures c != '#'
  {
  }

  /** Every heading with a text has these parts. */
  lemma HeadingHasParts(line: Line) returns (hashes: string, space: string, tail: string)
    requires MarkdownHeading(line).Some? && MarkdownHeading(line).value != ""
    ensures HeadingParts(line, hashes, space, MarkdownHeading(line).value, tail)
  {
    HashesStart(line);
    var n := Hashes(line);
    hashes := line[..n];
    space := TrimStartSplits(line[n..]);
    var rest := TrimStart(line[n..]);
    TrimStartBlank(line[n..]);
    tail := TrimEndSplits(rest);
    assert rest[0] == TrimEnd(rest)[0];
    assert line == hashes + line[n..];
  }

  /** A heading without a text: hashes and two or more spaces, the last not a line separator. */
  lemma EmptyHeadingMeans(line: Line)
    ensures MarkdownHeading(line) == Some("") <==>
              && 1 <= Hashes(line) <= 6 && Hashes(line) + 1 < |line| && Blank(line[Hashes(line)..])
              && line[|line| - 1] !in {'\U{2028}', '\U{2029}'}
  {
    HashesBound(line);
    TextNotEmpty(line[Hashes(line)..]);
    TrimStartBlank(line[Hashes(line)..]);
    if Hashes(line) < |line| {
      assert line[Hashes(line)] == line[Hashes(line)..][0];
    }
  }

  lemma TextNotEmpty(s: string)
    ensures TrimStart(s) != "" ==> TrimEnd(TrimStart(s)) != ""
  {
    TrimStartBlank(s);
    TrimEndKeepsFirst(TrimStart(s));
  }

  lemma {:induction false} TrimStartBlank(s: string)
    ensures TrimStart(s) == "" <==> Blank(s)
    ensures TrimStart(s) != "" ==> !IsSpace(TrimStart(s)[0])
  {
    if |s| > 0 && IsSpace(s[0]) {
      TrimStartBlank(s[1..]);
      assert s == [s[0]] + s[1..];
    } else if |s| > 0 {
      assert s[0] in s;
    }
  }

  lemma {:induction false} TrimEndKeepsFirst(s: string)
    ensures |s| > 0 && !IsSpace(s[0]) ==> TrimEnd(s) != ""
    decreases |s|
  {
    if |s| > 1 && IsSpace(s[|s| - 1]) {
      TrimEndKeepsFirst(s[..|s| - 1]);
    }
  }

  /** Trimming leaves nothing exactly when there is nothing but space. */
  lemma TrimBlank(s: string)
    ensures Trim(s) == "" <==> Blank(s)
  {
    TrimStartBlank(s);
    TrimEndKeepsFirst(TrimStart(s));
  }

  lemma BlankConcat(a: string, b: string)
    ensures Blank(a + b) <==> Blank(a) && Blank(b)
  {
  }

  lemma {:induction false} JoinBlank(lines: seq<Line>)
    ensures Blank(Join(lines)) <==> forall i :: 0 <= i < |lines| ==> Blank(lines[i])
  {
    if |lines| > 1 {
      JoinBlank(lines[1..]);
      BlankConcat(lines[0], "\n");
      BlankConcat(lines[0] + "\n", Join(lines[1..]));
      assert IsSpace('\n');
      assert forall i :: 0 < i < |lines| ==> lines[i] == lines[1..][i - 1];
    }
  }

  // ----- Windows -----

  /** The characters of some lines, each with its line break. */
  function Size(lines: seq<Line>, first: nat, last: nat): nat
    requires first <= last <= |lines|
    decreases last
  {
    if first == last then 0 else Size(lines, first, last - 1) + |lines[last - 1]| + 1
  }

  lemma {:induction false} SizeSplits(lines: seq<Line>, a: nat, b: nat, c: nat)
    requires a <= b <= c <= |lines|
    ensures Size(lines, a, c) == Size(lines, a, b) + Size(lines, b, c)
    decreases c
  {
    if b < c {
      SizeSplits(lines, a, b, c - 1);
    }
  }

  lemma JoinMore(lines: seq<Line>, last: Line)
    requires |lines| > 0
    ensures Join(lines + [last]) == Join(lines) + "\n" + last
  {
    if |lines| > 1 {
      JoinMore(lines[1..], last);
      assert (lines + [last])[1..] == lines[1..] + [last];
    } else {
      assert (lines + [last])[1..] == [last];
    }
  }

  /** The size of some lines is one more than the length of their text. */
  lemma {:induction false} SizeMeans(lines: seq<Line>, first: nat, last: nat)
    requires first < last <= |lines|
    ensures Size(lines, first, last) == |Join(lines[first..last])| + 1
    decreases last
  {
    if first + 1 < last {
      SizeMeans(lines, first, last - 1);
      assert lines[first..last] == lines[first..last - 1] + [lines[last - 1]];
      JoinMore(lines[first..last - 1], lines[last - 1]);
    } else {
      assert Size(lines, first, last - 1) == 0 && lines[first..last] == [lines[first]];
    }
  }

  /** A window is as long as fits, and holds at least one line. */
  ghost predicate Fills(lines: seq<Line>, w: Window, maxChars: int) {
    && w.start < w.end <= |lines|
    && (w.end == w.start + 1 || Size(lines, w.start, w.end) <= maxChars)
    && (w.end < |lines| ==> Size(lines, w.start, w.end + 1) > maxChars)
  }

  /** The next window starts as late as the overlap allows: one line less would overlap too little. */
  ghost predicate Overlaps(lines: seq<Line>, w: Window, next: nat, overlapChars: int) {
    && w.start < next <= w.end <= |lines|
    && (next < w.end ==> Size(lines, next + 1, w.end) < overlapChars)
    && (next > w.start + 1 ==> Size(lines, next, w.end) >= overlapChars)
  }

  ghost predicate Chained(lines: seq<Line>, ws: seq<Window>, maxChars: int, overlapChars: int) {
    && (forall i :: 0 <= i < |ws| ==> Fills(lines, ws[i], maxChars))
    && (|ws| > 0 ==> ws[0].start == 0)
    && (forall i :: 0 <= i < |ws| - 1 ==> ws[i].end < |lines| && Overlaps(lines, ws[i], ws[i + 1].start, overlapChars))
  }

  /** The windows of the whole text. */
  ghost predicate Windows(lines: seq<Line>, ws: seq<Window>, maxChars: int, overlapChars: int) {
    Chained(lines, ws, maxChars, overlapChars) && |ws| > 0 && ws[|ws| - 1].end == |lines|
  }

  /** The end of the window that starts here; the heading also looks at the line that did not fit. */
  method FillWindow(lines: seq<Line>, start: nat, maxChars: int, headingOf: Line -> Option<string>)
    returns (end: nat, heading: Option<string>)
    requires start < |lines|
    ensures Fills(lines, Window(start, end), maxChars)
    ensures heading == FirstHeading(lines, start, if end < |lines| then end + 1 else end, headingOf)
  {
    end, heading := start, None;
    var length := 0;
    while end < |lines|
      invariant start <= end <= |lines| && length == Size(lines, start, end)
      invariant end > start + 1 ==> length <= maxChars
      invariant heading == FirstHeading(lines, start, end, headingOf)
    {
      if heading.None? || heading.value == "" {
        heading := headingOf(lines[end]);
      }
      if length > 0 && length + |lines[end]| + 1 > maxChars {
        break;
      }
      length := length + |lines[end]| + 1;
      end := end + 1;
    }
  }

  predicate HasText(heading: Option<string>) {
    heading.Some? && heading.value != ""
  }

  /** The first heading with a text; without one, whatever the last line gives. */
  function FirstHeading(lines: seq<Line>, first: nat, last: nat, headingOf: Line -> Option<string>): Option<string>
    requires first <= last <= |lines|
    decreases last
  {
    if first == last then None
    else if HasText(FirstHeading(lines, first, last - 1, headingOf)) then FirstHeading(lines, first, last - 1, headingOf)
    else headingOf(lines[last - 1])
  }

  /** The first line whose heading has a text gives the heading. */
  lemma {:induction false} FirstHeadingMeans(lines: seq<Line>, first: nat, last: nat, headingOf: Line -> Option<string>, i: nat)
    requires first <= i < last <= |lines| && headingOf(lines[i]).Some? && headingOf(lines[i]).value != ""
    requires forall j :: first <= j < i ==> headingOf(lines[j]) in {None, Some("")}
    ensures FirstHeading(lines, first, last, headingOf) == headingOf(lines[i])
    decreases last
  {
    if i < last - 1 {
      FirstHeadingMeans(lines, first, last - 1, headingOf, i);
    } else if first < i {
      NoHeadingMeans(lines, first, i, headingOf);
    }
  }

  /** When no heading has a text, the last line decides between an empty one and none. */
  lemma {:induction false} NoHeadingMeans(lines: seq<Line>, first: nat, last: nat, headingOf: Line -> Option<string>)
    requires first < last <= |lines| && forall j :: first <= j < last ==> headingOf(lines[j]) in {None, Some("")}
    ensures FirstHeading(lines, first, last, headingOf) == headingOf(lines[last - 1])
    decreases last
  {
    if first < last - 1 {
      NoHeadingMeans(lines, first, last - 1, headingOf);
    }
  }

  /** Where the next window starts. */
  method Rewind(lines: seq<Line>, w: Window, overlapChars: int) returns (next: nat)
    requires w.start < w.end <= |lines|
    ensures Overlaps(lines, w, next, overlapChars)
  {
    var rewind, cursor := 0, w.end - 1;
    while cursor > w.start && rewind < overlapChars
      invariant w.start <= cursor < w.end && rewind == Size(lines, cursor + 1, w.end)
      invariant cursor + 1 < w.end ==> Size(lines, cursor + 2, w.end) < overlapChars
      decreases cursor
    {
      SizeSplits(lines, cursor, cursor + 1, w.end);
      rewind := rewind + |lines[cursor]| + 1;
      cursor := cursor - 1;
    }
    next := Max(w.start + 1, cursor + 1);
  }

  /** The chunk of a window says where it is and what it holds. */
  ghost predicate FromWindow(lines: seq<Line>, headingOf: Line -> Option<string>, c: Chunk, w: Window) {
    && w.start < w.end <= |lines| && c.lineStart == w.start + 1 && c.lineEnd == w.end
    && c.content == Trim(Join(lines[w.start..w.end])) && c.content != ""
    && c.heading == FirstHeading(lines, w.start, if w.end < |lines| then w.end + 1 else w.end, headingOf)
  }

  /** Every window with anything but space in it has its chunk, in order, and there is no other chunk. */
  ghost predicate Emitted(lines: seq<Line>, headingOf: Line -> Option<string>, ws: seq<Window>, chunks: seq<Chunk>)
    decreases |ws|
  {
    if |ws| == 0 then chunks == []
    else
      var w, init := ws[|ws| - 1], ws[..|ws| - 1];
      if w.start < w.end <= |lines| && Trim(Join(lines[w.start..w.end])) != ""
      then |chunks| > 0 && FromWindow(lines, headingOf, chunks[|chunks| - 1], w)
           && chunks[|chunks| - 1].ordinal == |chunks| - 1 && Emitted(lines, headingOf, init, chunks[..|chunks| - 1])
      else Emitted(lines, headingOf, init, chunks)
  }

  /** The windows so far leave the next one to start here. */
  ghost predicate ContinuesAt(lines: seq<Line>, ws: seq<Window>, start: nat, overlapChars: int) {
    if |ws| == 0 then start == 0 else ws[|ws| - 1].end < |lines| && Overlaps(lines, ws[|ws| - 1], start, overlapChars)
  }

  lemma ChainNext(lines: seq<Line>, ws: seq<Window>, w: Window, maxChars: int, overlapChars: int)
    requires Chained(lines, ws, maxChars, overlapChars) && ContinuesAt(lines, ws, w.start, overlapChars) && Fills(lines, w, maxChars)
    ensures Chained(lines, ws + [w], maxChars, overlapChars)
  {
  }

  /** The window that starts here, and its chunk. */
  method AddWindow(lines: seq<Line>, start: nat, maxChars: int, ghost overlapChars: int, headingOf: Line -> Option<string>,
                   before: seq<Chunk>, ghost ws: seq<Window>) returns (end: nat, chunks: seq<Chunk>)
    requires start < |lines| && ContinuesAt(lines, ws, start, overlapChars)
    requires Chained(lines, ws, maxChars, overlapChars) && Emitted(lines, headingOf, ws, before)
    ensures start < end <= |lines|
    ensures Chained(lines, ws + [Window(start, end)], maxChars, overlapChars) && Emitted(lines, headingOf, ws + [Window(start, end)], chunks)
  {
    var heading;
    end, heading := FillWindow(lines, start, maxChars, headingOf);
    var content := Trim(Join(lines[start..end]));
    chunks := EmitWindow(lines, headingOf, ws, Window(start, end), before, heading, content);
    ChainNext(lines, ws, Window(start, end), maxChars, overlapChars);
  }

  /** The loop over the windows. */
  method ParseWindows(lines: seq<Line>, maxChars: int, overlapChars: int, headingOf: Line -> Option<string>)
    returns (chunks: seq<Chunk>, ghost ws: seq<Window>)
    requires |lines| > 0
    ensures Windows(lines, ws, maxChars, overlapChars) && Emitted(lines, headingOf, ws, chunks)
  {
    var start, end := 0, 0;
    chunks, ws := [], [];
    while start < |lines|
      invariant start < |lines| && ContinuesAt(lines, ws, start, overlapChars)
      invariant Chained(lines, ws, maxChars, overlapChars) && Emitted(lines, headingOf, ws, chunks)
      decreases |lines| - start
    {
      end, chunks := AddWindow(lines, start, maxChars, overlapChars, headingOf, chunks, ws);
      ws := ws + [Window(start, end)];
      if end >= |lines| {
        break;
      }
      start := Rewind(lines, Window(start, end), overlapChars);
    }
  }

  /** A window with anything but space in it becomes a chunk. */
  method EmitWindow(lines: seq<Line>, ghost headingOf: Line -> Option<string>, ghost ws: seq<Window>, w: Window, before: seq<Chunk>, heading: Option<string>, content: string)
    returns (chunks: seq<Chunk>)
    requires Emitted(lines, headingOf, ws, before)
    requires w.start < w.end <= |lines| && content == Trim(Join(lines[w.start..w.end]))
    requires heading == FirstHeading(lines, w.start, if w.end < |lines| then w.end + 1 else w.end, headingOf)
    ensures Emitted(lines, headingOf, ws + [w], chunks)
  {
    assert (ws + [w])[..|ws|] == ws;
    chunks := before;
    if content != "" {
      chunks := before + [Chunk(|before|, heading, content, w.start + 1, w.end)];
      assert chunks[..|chunks| - 1] == before;
    }
  }

  /** parseKnowledgeText, for a text whose line breaks have been unified. */
  method ParseText(text: string, chunkTokens: int, overlapTokens: int)
    returns (chunks: seq<Chunk>, ghost lines: seq<Line>, ghost ws: seq<Window>)
    ensures lines == Split(text)
    ensures var maxChars := if chunkTokens * 4 < 512 then 512 else chunkTokens * 4;
            var overlap := if overlapTokens < 0 then 0 else if overlapTokens * 4 >= maxChars then maxChars - 1 else overlapTokens * 4;
            Windows(lines, ws, maxChars, overlap) && Emitted(lines, MarkdownHeading, ws, chunks)
    ensures forall k :: 0 <= k < |chunks| ==>
              IsPiece(Split(text), chunks[k], if chunkTokens * 4 < 512 then 512 else chunkTokens * 4) && chunks[k].ordinal == k
    ensures forall l :: 0 <= l < |Split(text)| && !Blank(Split(text)[l]) ==> InChunk(chunks, l)
  {
    lines := Split(text);
    chunks, ws := ParseWindows(Split(text), MaxChars(chunkTokens), OverlapChars(chunkTokens, overlapTokens), MarkdownHeading);
    ChunksInOrder(lines, MarkdownHeading, ws, chunks);
    forall k | 0 <= k < |chunks| ensures IsPiece(lines, chunks[k], MaxChars(chunkTokens)) {
      var i := ChunkHasWindow(lines, MarkdownHeading, ws, chunks, k);
      WindowIsPiece(lines, MarkdownHeading, chunks[k], ws[i], MaxChars(chunkTokens));
    }
    forall l | 0 <= l < |lines| && !Blank(lines[l]) ensures InChunk(chunks, l) {
      var i := WindowOf(lines, ws, MaxChars(chunkTokens), OverlapChars(chunkTokens, overlapTokens), l);
      LineIsEmitted(lines, MarkdownHeading, ws, chunks, i, l);
    }
  }

  /** The chunk holds the lines it names, trimmed and not empty: one line, or lines of less than maxChars characters in all. */
  ghost predicate IsPiece(lines: seq<Line>, c: Chunk, maxChars: int) {
    && 1 <= c.lineStart <= c.lineEnd <= |lines| && c.content == Trim(Join(lines[c.lineStart - 1..c.lineEnd])) && c.content != ""
    && (c.lineStart == c.lineEnd || |Join(lines[c.lineStart - 1..c.lineEnd])| < maxChars)
  }

  lemma WindowIsPiece(lines: seq<Line>, headingOf: Line -> Option<string>, c: Chunk, w: Window, maxChars: int)
    requires FromWindow(lines, headingOf, c, w) && Fills(lines, w, maxChars)
    ensures IsPiece(lines, c, maxChars)
  {
    SizeMeans(lines, w.start, w.end);
  }

  lemma {:induction false} ChunkHasWindow(lines: seq<Line>, headingOf: Line -> Option<string>, ws: seq<Window>, chunks: seq<Chunk>, k: nat)
    returns (i: nat)
    requires Emitted(lines, headingOf, ws, chunks) && k < |chunks|
    ensures i < |ws| && FromWindow(lines, headingOf, chunks[k], ws[i])
    decreases |ws|
  {
    var w, init := ws[|ws| - 1], ws[..|ws| - 1];
    if w.start < w.end <= |lines| && Trim(Join(lines[w.start..w.end])) != "" {
      i := |ws| - 1;
      if k < |chunks| - 1 {
        i := ChunkHasWindow(lines, headingOf, init, chunks[..|chunks| - 1], k);
      }
    } else {
      i := ChunkHasWindow(lines, headingOf, init, chunks, k);
    }
  }

  ghost predicate InChunk(chunks: seq<Chunk>, l: nat) {
    exists k :: 0 <= k < |chunks| && chunks[k].lineStart <= l + 1 <= chunks[k].lineEnd
  }

  lemma {:induction false} ChunksInOrder(lines: seq<Line>, headingOf: Line -> Option<string>, ws: seq<Window>, chunks: seq<Chunk>)
    requires Emitted(lines, headingOf, ws, chunks)
    ensures forall k :: 0 <= k < |chunks| ==> chunks[k].ordinal == k && chunks[k].content != ""
    decreases |ws|
  {
    if |ws| > 0 {
      var w := ws[|ws| - 1];
      if w.start < w.end <= |lines| && Trim(Join(lines[w.start..w.end])) != "" {
        ChunksInOrder(lines, headingOf, ws[..|ws| - 1], chunks[..|chunks| - 1]);
        assert forall k :: 0 <= k < |chunks| - 1 ==> chunks[k] == chunks[..|chunks| - 1][k];
      } else {
        ChunksInOrder(lines, headingOf, ws[..|ws| - 1], chunks);
      }
    }
  }

  /** Every line lies in a window. */
  lemma {:induction false} WindowBefore(lines: seq<Line>, ws: seq<Window>, maxChars: int, overlapChars: int, n: nat, l: nat) returns (i: nat)
    requires Chained(lines, ws, maxChars, overlapChars) && 0 < n <= |ws| && l < ws[n - 1].end
    ensures i < n && ws[i].start <= l < ws[i].end
    decreases n
  {
    if ws[n - 1].start <= l {
      i := n - 1;
    } else {
      assert Overlaps(lines, ws[n - 2], ws[n - 1].start, overlapChars);
      i := WindowBefore(lines, ws, maxChars, overlapChars, n - 1, l);
    }
  }

  lemma WindowOf(lines: seq<Line>, ws: seq<Window>, maxChars: int, overlapChars: int, l: nat) returns (i: nat)
    requires Windows(lines, ws, maxChars, overlapChars) && l < |lines|
    ensures i < |ws| && ws[i].start <= l < ws[i].end <= |lines|
  {
    i := WindowBefore(lines, ws, maxChars, overlapChars, |ws|, l);
    assert Fills(lines, ws[i], maxChars);
  }

  lemma {:induction false} LineIsEmitted(lines: seq<Line>, headingOf: Line -> Option<string>, ws: seq<Window>, chunks: seq<Chunk>, i: nat, l: nat)
    requires Emitted(lines, headingOf, ws, chunks) && i < |ws| && ws[i].start <= l < ws[i].end <= |lines| && !Blank(lines[l])
    ensures InChunk(chunks, l)
    decreases |ws|
  {
    var w := ws[|ws| - 1];
    if i == |ws| - 1 {
      var part := lines[w.start..w.end];
      JoinBlank(part);
      assert part[l - w.start] == lines[l];
      TrimBlank(Join(part));
    } else if w.start < w.end <= |lines| && Trim(Join(lines[w.start..w.end])) != "" {
      LineIsEmitted(lines, headingOf, ws[..|ws| - 1], chunks[..|chunks| - 1], i, l);
      var k :| 0 <= k < |chunks| - 1 && chunks[..|chunks| - 1][k].lineStart <= l + 1 <= chunks[..|chunks| - 1][k].lineEnd;
      assert chunks[k].lineStart <= l + 1 <= chunks[k].lineEnd;
    } else {
      LineIsEmitted(lines, headingOf, ws[..|ws| - 1], chunks, i, l);
    }
  }

  // ----- What the windows keep -----

  /** Starts strictly increase; ends never decrease, because what is kept of a window still fits. */
  lemma WindowsAdvance(lines: seq<Line>, ws: seq<Window>, maxChars: int, overlapChars: int, i: nat)
    requires Chained(lines, ws, maxChars, overlapChars) && i + 1 < |ws|
    ensures ws[i].start < ws[i + 1].start <= ws[i].end <= ws[i + 1].end
    ensures ws[i + 1].end <= |lines|
  {
    var w, next := ws[i], ws[i + 1];
    assert Fills(lines, w, maxChars) && Fills(lines, next, maxChars) && Overlaps(lines, w, next.start, overlapChars);
    if next.end < w.end {
      SizeSplits(lines, w.start, next.start, w.end);
      SizeSplits(lines, next.start, next.end + 1, w.end);
    }
  }

  /** Without overlap each window starts where the one before it ends. */
  lemma NoOverlapMeets(lines: seq<Line>, ws: seq<Window>, maxChars: int, i: nat)
    requires Chained(lines, ws, maxChars, 0) && i + 1 < |ws|
    ensures ws[i + 1].start == ws[i].end
  {
  }

  /** The lines of the windows, one window after the other. */
  function Flatten(lines: seq<Line>, ws: seq<Window>): seq<Line>
    requires forall w <- ws :: w.start <= w.end <= |lines|
  {
    if |ws| == 0 then [] else Flatten(lines, ws[..|ws| - 1]) + lines[ws[|ws| - 1].start..ws[|ws| - 1].end]
  }

  lemma {:induction false} FlattenPrefix(lines: seq<Line>, ws: seq<Window>, maxChars: int)
    requires Chained(lines, ws, maxChars, 0) && |ws| > 0
    ensures forall w <- ws :: w.start <= w.end <= |lines|
    ensures Flatten(lines, ws) == lines[..ws[|ws| - 1].end]
    decreases |ws|
  {
    assert forall i :: 0 <= i < |ws| ==> Fills(lines, ws[i], maxChars);
    var init := ws[..|ws| - 1];
    if |ws| > 1 {
      assert Chained(lines, init, maxChars, 0);
      FlattenPrefix(lines, init, maxChars);
      NoOverlapMeets(lines, ws, maxChars, |ws| - 2);
    } else {
      assert Flatten(lines, init) == [];
    }
  }

  /** Main result: without overlap the windows cut the text into pieces that put together give it back. */
  lemma WindowsPartition(text: string, ws: seq<Window>, maxChars: int)
    requires Windows(Split(text), ws, maxChars, 0)
    ensures forall w <- ws :: w.start <= w.end <= |Split(text)|
    ensures Flatten(Split(text), ws) == Split(text) && Join(Flatten(Split(text), ws)) == text
  {
    var lines := Split(text);
    FlattenPrefix(lines, ws, maxChars);
    assert lines[..|lines|] == lines;
    SplitJoins(text);
  }

  /**
   * The heading of a chunk can come from a line outside it: exactly when no line of the window gives
   * one with a text and the line that did not fit gives another.
   */
  lemma HeadingFromOutside(lines: seq<Line>, w: Window, headingOf: Line -> Option<string>)
    requires w.start < w.end < |lines|
    ensures FirstHeading(lines, w.start, w.end + 1, headingOf) == FirstHeading(lines, w.start, w.end, headingOf)
            <==> HasText(FirstHeading(lines, w.start, w.end, headingOf))
                 || headingOf(lines[w.end]) == FirstHeading(lines, w.start, w.end, headingOf)
  {
  }

  // ----- A text where it does -----

  lemma {:induction false} SplitOne(a: string)
    requires '\n' !in a
    ensures Split(a) == [a]
  {
    if |a| > 0 {
      SplitOne(a[1..]);
      assert a == [a[0]] + a[1..];
    }
  }

  lemma {:induction false} SplitTwo(a: string, b: string)
    requires '\n' !in a && '\n' !in b
    ensures Split(a + "\n" + b) == [a, b]
  {
    var text := a + "\n" + b;
    if |a| == 0 {
      SplitOne(b);
      assert text[1..] == b;
    } else {
      SplitTwo(a[1..], b);
      assert text[1..] == a[1..] + "\n" + b && a == [a[0]] + a[1..];
    }
  }

  lemma TitleIsHeading()
    ensures MarkdownHeading("# Title") == Some("Title") && Trim("# Title") == "# Title" && '\n' !in "# Title"
  {
    var line := "# Title";
    assert line[1..] == " Title" && " Title"[1..] == "Title";
    assert Hashes(" Title") == 0;
    assert TrimStart("Title") == "Title" && TrimEnd("Title") == "Title";
  }

  const BODY: string := seq(512, i => 'a')

  lemma BodyIsPlain()
    ensures '\n' !in BODY && |BODY| == 512 && MarkdownHeading(BODY) == None && Trim(BODY) == BODY
  {
    assert BODY[0] == 'a' && BODY[511] == 'a';
  }

  /** A line of 512 characters and a heading: the first chunk has the line, and the heading after it. */
  lemma HeadingTakenFromNextLine()
    ensures var text, ws := BODY + "\n" + "# Title", [Window(0, 1), Window(1, 2)];
            var chunks := [Chunk(0, Some("Title"), BODY, 1, 1), Chunk(1, Some("Title"), "# Title", 2, 2)];
            && Windows(Split(text), ws, MaxChars(128), OverlapChars(128, 0)) && Emitted(Split(text), MarkdownHeading, ws, chunks)
    ensures MarkdownHeading(BODY) == None
  {
    var lines := [BODY, "# Title"];
    BodyIsPlain();
    TitleIsHeading();
    SplitTwo(BODY, "# Title");
    TitleWindows(lines);
    TitleChunks(lines);
  }

  lemma TitleWindows(lines: seq<Line>)
    requires lines == [BODY, "# Title"] && |BODY| == 512
    ensures Windows(lines, [Window(0, 1), Window(1, 2)], 512, 0)
  {
    assert Size(lines, 0, 0) == 0 && Size(lines, 0, 1) == 513 && Size(lines, 0, 2) == 521;
    assert Size(lines, 1, 1) == 0 && Size(lines, 1, 2) == 8;
  }

  lemma TitleChunks(lines: seq<Line>)
    requires lines == [BODY, "# Title"] && Trim(BODY) == BODY && |BODY| == 512 && Trim("# Title") == "# Title"
    requires MarkdownHeading(BODY) == None && MarkdownHeading("# Title") == Some("Title")
    ensures Emitted(lines, MarkdownHeading, [Window(0, 1), Window(1, 2)],
                    [Chunk(0, Some("Title"), BODY, 1, 1), Chunk(1, Some("Title"), "# Title", 2, 2)])
  {
    var w, v := Window(0, 1), Window(1, 2);
    var c, e := Chunk(0, Some("Title"), BODY, 1, 1), Chunk(1, Some("Title"), "# Title", 2, 2);
    assert lines[0..1] == [BODY] && lines[1..2] == ["# Title"];
    assert FirstHeading(lines, 0, 1, MarkdownHeading) == None;
    assert FirstHeading(lines, 0, 2, MarkdownHeading) == Some("Title");
    assert FirstHeading(lines, 1, 2, MarkdownHeading) == Some("Title");
    assert FromWindow(lines, MarkdownHeading, c, w) && FromWindow(lines, MarkdownHeading, e, v);
    assert [w, v][..1] == [w] && [w][..0] == [] && [c, e][..1] == [c] && [c][..0] == [];
    assert Emitted(lines, MarkdownHeading, [], []);
    assert Emitted(lines, MarkdownHeading, [w], [c]);
  }
}
