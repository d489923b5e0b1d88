/** internal/ingest/parser.go: a design document as ordered structural blocks. */
module Parser {
  import opened Options
  import opened Text

  datatype BlockKind = Heading | Paragraph | ListItem | TableRow | Code

  datatype Block = Block(kind: BlockKind, text: string, order: nat)

  // ---- Lines ---------------------------------------------------------------------

  /** strings.NewReplacer("\r\n", "\n", "\r", "\n") */
  function Normalize(s: string): string
  {
    if s == [] then []
    else if |s| >= 2 && s[0] == '\r' && s[1] == '\n' then ['\n'] + Normalize(s[2..])
    else if s[0] == '\r' then ['\n'] + Normalize(s[1..])
    else [s[0]] + Normalize(s[1..])
  }

  /** strings.Split(s, "\n") */
  function Split(s: string): (lines: seq<string>)
    ensures lines != []
  {
    if s == [] then [""]
    else
      var rest := Split(s[1..]);
      if s[0] == '\n' then [""] + rest else [[s[0]] + rest[0]] + rest[1..]
  }

  function DropTrailingEmpty(lines: seq<string>): seq<string>
  {
    if lines != [] && lines[|lines| - 1] == "" then lines[..|lines| - 1] else lines
  }

  function SplitLines(content: string): seq<string>
  {
    if content == "" then [] else DropTrailingEmpty(Split(Normalize(content)))
  }

  // ---- What a trimmed line is ------------------------------------------------------

  predicate IsFence(line: string)
  {
    HasPrefix(line, "```")
  }

  /** How many characters at the front of s satisfy p. */
  function Run(s: string, p: char -> bool): (n: nat)
    ensures n <= |s|
    ensures forall i :: 0 <= i < n ==> p(s[i])
    ensures n < |s| ==> !p(s[n])
  {
    if s != [] && p(s[0]) then 1 + Run(s[1..], p) else 0
  }

  predicate IsHash(c: char)
  {
    c == '#'
  }

  function HeadingText(line: string): Option<string>
  {
    var hashes := Run(line, IsHash);
    if 1 <= hashes <= 6 && HasPrefix(line[hashes..], " ") then Some(TrimSpace(line[hashes..])) else None
  }

  predicate IsTableRow(line: string)
  {
    HasPrefix(line, "|") && '|' in line[1..]
  }

  /** The length of a leading ordered list marker, "1." or "12)"; "1.2" is not one. */
  function OrderedMarker(line: string): (r: Option<nat>)
    ensures r.Some? ==> r.value <= |line|
  {
    var digits := Run(line, IsDigit);
    if digits == 0 || digits == |line| || (line[digits] != '.' && line[digits] != ')') then None
    else if digits + 1 < |line| && IsDigit(line[digits + 1]) then None
    else Some(digits + 1)
  }

  function MarkerContent(rest: string): Option<string>
  {
    if rest == "" then Some("") else if rest[0] != ' ' then None else Some(TrimSpace(rest[1..]))
  }

  function ListItemText(line: string): Option<string>
  {
    if line != "" && line[0] in "-*+" then MarkerContent(line[1..])
    else
      var marker := OrderedMarker(line);
      if marker.Some? then MarkerContent(line[marker.value..]) else None
  }

  /** None of the earlier classes, so part of a paragraph. */
  predicate IsProse(line: string)
  {
    var t := TrimSpace(line);
    t != "" && !IsFence(t) && HeadingText(t).None? && !IsTableRow(t) && ListItemText(t).None?
  }

  predicate IsFenceLine(line: string)
  {
    IsFence(TrimSpace(line))
  }

  function ParagraphText(lines: seq<string>): string
  {
    TrimSpace(Join(lines, "\n"))
  }

  method HeadingTextOf(line: string) returns (r: Option<string>)
    ensures r == HeadingText(line)
  {
    var hashes := 0;
    while hashes < |line| && line[hashes] == '#'
      invariant hashes <= |line| && Run(line, IsHash) == hashes + Run(line[hashes..], IsHash)
    {
      hashes := hashes + 1;
    }
    if hashes < 1 || hashes > 6 {
      return None;
    }
    var rest := line[hashes..];
    if !HasPrefix(rest, " ") {
      return None;
    }
    return Some(TrimSpace(rest));
  }

  method OrderedMarkerOf(line: string) returns (r: Option<nat>)
    ensures r == OrderedMarker(line)
  {
    var digits := 0;
    while digits < |line| && '0' <= line[digits] <= '9'
      invariant digits <= |line| && Run(line, IsDigit) == digits + Run(line[digits..], IsDigit)
    {
      digits := digits + 1;
    }
    if digits == 0 || digits >= |line| {
      return None;
    }
    if line[digits] == '.' || line[digits] == ')' {
      if digits + 1 < |line| && '0' <= line[digits + 1] <= '9' {
        return None;
      }
      return Some(digits + 1);
    }
    return None;
  }

  method ListItemTextOf(line: string) returns (r: Option<string>)
    ensures r == ListItemText(line)
  {
    if |line| >= 1 && (line[0] == '-' || line[0] == '*' || line[0] == '+') {
      return MarkerContent(line[1..]);
    }
    var marker := OrderedMarkerOf(line);
    if marker.Some? {
      return MarkerContent(line[marker.value..]);
    }
    return None;
  }

  // ---- A document as a list of segments ---------------------------------------------

  /** A stretch of consecutive lines with one meaning. */
  datatype Segment =
    | BlankLine(line: string)
    | Fenced(opening: string, inner: seq<string>, closing: Option<string>)
    | HeadingLine(line: string)
    | TableLine(line: string)
    | ItemLine(line: string)
    | Prose(lines: seq<string>)

  function LinesOf(s: Segment): seq<string>
  {
    match s
    case Fenced(opening, inner, closing) => [opening] + inner + if closing.Some? then [closing.value] else []
    case Prose(lines) => lines
    case _ => [s.line]
  }

  function AllLines(segments: seq<Segment>): seq<string>
  {
    if segments == [] then [] else LinesOf(segments[0]) + AllLines(segments[1..])
  }

  function Flush(pending: seq<string>): seq<Segment>
  {
    if pending == [] then [] else [Prose(pending)]
  }

  /** The number of lines before the first fence line. */
  function FenceLength(lines: seq<string>): (n: nat)
    ensures n <= |lines|
    ensures forall i :: 0 <= i < n ==> !IsFenceLine(lines[i])
    ensures n < |lines| ==> IsFenceLine(lines[n])
  {
    if lines == [] || IsFenceLine(lines[0]) then 0 else 1 + FenceLength(lines[1..])
  }

  /** The fenced segment that starts at lines[0]. */
  function FencedAt(lines: seq<string>): Segment
    requires lines != []
  {
    var n := FenceLength(lines[1..]);
    Fenced(lines[0], lines[1..n + 1], if n + 1 < |lines| then Some(lines[n + 1]) else None)
  }

  /** The segment that starts at a line that is not prose. */
  function SegmentAt(lines: seq<string>): Segment
    requires lines != []
  {
    var line := lines[0];
    var t := TrimSpace(line);
    if t == "" then BlankLine(line)
    else if IsFence(t) then FencedAt(lines)
    else if HeadingText(t).Some? then HeadingLine(line)
    else if IsTableRow(t) then TableLine(line)
    else ItemLine(line)
  }

  /** The number of lines of that segment. */
  function Width(lines: seq<string>): (w: nat)
    requires lines != []
    ensures 0 < w <= |lines|
  {
    if !IsFenceLine(lines[0]) then 1
    else
      var n := FenceLength(lines[1..]);
      if n + 1 < |lines| then n + 2 else n + 1
  }

  /** The segments of the remaining lines, behind the lines of an unfinished paragraph. */
  function Segments(pending: seq<string>, lines: seq<string>): seq<Segment>
    decreases |lines|
  {
    if lines == [] then Flush(pending)
    else if IsProse(lines[0]) then Segments(pending + [lines[0]], lines[1..])
    else Flush(pending) + ([SegmentAt(lines)] + Segments([], lines[Width(lines)..]))
  }

  /** The block a segment gives, if any: text that is empty, or code that is blank, gives none. */
  function BlockOf(s: Segment, order: nat): seq<Block>
  {
    match s
    case BlankLine(_) => []
    case Fenced(_, inner, _) =>
      var text := Join(inner, "\n");
      if Blank(text) then [] else [Block(Code, text, order)]
    case HeadingLine(line) =>
      var text := HeadingText(TrimSpace(line));
      if text.None? || text.value == "" then [] else [Block(Heading, text.value, order)]
    case TableLine(line) => [Block(TableRow, TrimSpace(line), order)]
    case ItemLine(line) =>
      var text := ListItemText(TrimSpace(line));
      if text.None? || text.value == "" then [] else [Block(ListItem, text.value, order)]
    case Prose(lines) =>
      var text := ParagraphText(lines);
      if text == "" then [] else [Block(Paragraph, text, order)]
  }

  function Blocks(segments: seq<Segment>, order: nat): seq<Block>
  {
    if segments == [] then []
    else
      var first := BlockOf(segments[0], order);
      first + Blocks(segments[1..], order + |first|)
  }

  function Parsed(content: string): seq<Block>
  {
    Blocks(Segments([], SplitLines(content)), 0)
  }

  // ---- The single forward pass ---------------------------------------------------------

  lemma {:induction false} BlocksAppend(xs: seq<Segment>, ys: seq<Segment>, order: nat)
    ensures Blocks(xs + ys, order) == Blocks(xs, order) + Blocks(ys, order + |Blocks(xs, order)|)
  {
    hide BlockOf;
    if xs == [] {
      assert xs + ys == ys;
    } else {
      assert (xs + ys)[1..] == xs[1..] + ys;
      BlocksAppend(xs[1..], ys, order + |BlockOf(xs[0], order)|);
    }
  }

  /** What is still to come, given the pending paragraph and the remaining lines. */
  function Rest(paragraph: seq<string>, lines: seq<string>, order: nat): seq<Block>
  {
    Blocks(Segments(paragraph, lines), order)
  }

  /** A line that is not prose ends the paragraph and gives its own segment's block. */
  lemma SegmentStep(paragraph: seq<string>, lines: seq<string>, order: nat)
    requires lines != [] && !IsProse(lines[0])
    ensures var p := Blocks(Flush(paragraph), order);
            var b := BlockOf(SegmentAt(lines), order + |p|);
            Rest(paragraph, lines, order) == p + (b + Rest([], lines[Width(lines)..], order + |p| + |b|))
  {
    hide BlockOf, SegmentAt, IsProse, Width;
    var rest := Segments([], lines[Width(lines)..]);
    BlocksAppend(Flush(paragraph), [SegmentAt(lines)] + rest, order);
    assert ([SegmentAt(lines)] + rest)[1..] == rest;
  }

  lemma ProseStep(paragraph: seq<string>, lines: seq<string>, order: nat)
    requires lines != [] && IsProse(lines[0])
    ensures Rest(paragraph, lines, order) == Rest(paragraph + [lines[0]], lines[1..], order)
  {
    hide IsProse;
  }

  method ParseBlocks(content: string) returns (blocks: seq<Block>)
    ensures blocks == Parsed(content)
  {
    hide *;
    blocks := [];
    var paragraph: seq<string> := [];
    var lines := SplitLines(content);
    var i := 0;
    ParsedIsRest(content);
    assert lines[0..] == lines;
    while i < |lines|
      invariant i <= |lines|
      invariant Parsed(content) == blocks + Rest(paragraph, lines[i..], |blocks|)
    {
      blocks, paragraph, i := ParseLine(blocks, paragraph, lines, i);
    }
    NothingLeft(paragraph, |blocks|);
    assert lines[i..] == [];
    blocks := FlushParagraph(blocks, paragraph);
  }

  lemma ParsedIsRest(content: string)
    ensures Parsed(content) == Rest([], SplitLines(content), 0)
  {
  }

  lemma NothingLeft(paragraph: seq<string>, order: nat)
    ensures Rest(paragraph, [], order) == Blocks(Flush(paragraph), order)
  {
    hide BlockOf, Flush;
  }

  /** One turn of the loop: consumes a line, or a whole fenced block. */
  method ParseLine(blocks: seq<Block>, paragraph: seq<string>, lines: seq<string>, i: nat)
    returns (out: seq<Block>, pending: seq<string>, next: nat)
    requires i < |lines|
    ensures i < next <= |lines|
    ensures blocks + Rest(paragraph, lines[i..], |blocks|) == out + Rest(pending, lines[next..], |out|)
  {
    hide *;
    var line := lines[i];
    assert lines[i..][0] == line && lines[i..][1..] == lines[i + 1..];
    var prose, heading, item := Classify(line);
    if prose {
      ProseStep(paragraph, lines[i..], |blocks|);
      return blocks, paragraph + [line], i + 1;
    }
    SegmentStep(paragraph, lines[i..], |blocks|);
    out := FlushParagraph(blocks, paragraph);
    pending := [];
    ghost var flushed := out;
    if IsFenceLine(line) {
      out, next := ReadFence(out, lines, i);
    } else {
      out := EmitLine(out, lines[i..], heading, item);
      next := i + 1;
    }
    assert lines[next..] == lines[i..][Width(lines[i..])..];
    ghost var b, rest := BlockOf(SegmentAt(lines[i..]), |flushed|), Rest([], lines[next..], |out|);
    assert flushed + (b + rest) == out + rest;
  }

  method Classify(line: string) returns (prose: bool, heading: Option<string>, item: Option<string>)
    ensures prose == IsProse(line)
    ensures heading == HeadingText(TrimSpace(line)) && item == ListItemText(TrimSpace(line))
  {
    hide HeadingText, ListItemText, TrimSpace, IsFence, IsTableRow;
    var trimmed := TrimSpace(line);
    heading := HeadingTextOf(trimmed);
    item := ListItemTextOf(trimmed);
    prose := trimmed != "" && !IsFence(trimmed) && heading.None? && !IsTableRow(trimmed) && item.None?;
  }

  method FlushParagraph(blocks: seq<Block>, paragraph: seq<string>) returns (out: seq<Block>)
    ensures out == blocks + Blocks(Flush(paragraph), |blocks|)
  {
    hide TrimSpace;
    out := blocks;
    var text := ParagraphText(paragraph);
    assert paragraph == [] ==> text == "" by {
      assert Join([], "\n") == "";
      TrimEdges("");
    }
    if text != "" {
      out := out + [Block(Paragraph, text, |out|)];
    }
  }

  /** A line outside a fence that is no prose. */
  method EmitLine(blocks: seq<Block>, lines: seq<string>, heading: Option<string>, item: Option<string>)
    returns (out: seq<Block>)
    requires lines != [] && !IsProse(lines[0]) && !IsFenceLine(lines[0])
    requires heading == HeadingText(TrimSpace(lines[0])) && item == ListItemText(TrimSpace(lines[0]))
    ensures out == blocks + BlockOf(SegmentAt(lines), |blocks|) && Width(lines) == 1
  {
    hide HeadingText, ListItemText, TrimSpace, IsTableRow;
    var trimmed := TrimSpace(lines[0]);
    out := blocks;
    if trimmed == "" {
      return;
    }
    if heading.Some? {
      if heading.value != "" {
        out := out + [Block(Heading, heading.value, |out|)];
      }
    } else if IsTableRow(trimmed) {
      out := out + [Block(TableRow, trimmed, |out|)];
    } else if item.value != "" {
      out := out + [Block(ListItem, item.value, |out|)];
    }
  }

  /** Consumes a fenced block from its opening line to its closing line or the end of the document. */
  method ReadFence(blocks: seq<Block>, lines: seq<string>, start: nat) returns (out: seq<Block>, next: nat)
    requires start < |lines| && IsFenceLine(lines[start])
    ensures out == blocks + BlockOf(SegmentAt(lines[start..]), |blocks|)
    ensures next == start + Width(lines[start..]) <= |lines|
  {
    var inner, i := ReadInner(lines, start + 1);
    FenceShape(lines, start, i);
    hide TrimSpace, Join, IsFenceLine, SegmentAt, Width, FenceLength;
    out, next := blocks, i;
    var text := Join(inner, "\n");
    if TrimSpace(text) != "" {
      out := out + [Block(Code, text, |out|)];
    }
    if i < |lines| {
      next := i + 1;
    }
  }

  lemma FenceShape(lines: seq<string>, start: nat, i: nat)
    requires start < i <= |lines| && IsFenceLine(lines[start])
    requires FenceLength(lines[start + 1..]) == i - start - 1
    ensures var s := SegmentAt(lines[start..]);
            s.Fenced? && s.inner == lines[start + 1..i]
    ensures Width(lines[start..]) == if i < |lines| then i - start + 1 else i - start
  {
    hide TrimSpace, FenceLength, HeadingText, ListItemText, IsTableRow;
    assert lines[start..][1..] == lines[start + 1..] && lines[start..][0] == lines[start];
    assert lines[start..][1..i - start] == lines[start + 1..i];
    assert !IsFence("");
  }

  method ReadInner(lines: seq<string>, start: nat) returns (inner: seq<string>, i: nat)
    requires start <= |lines|
    ensures start <= i <= |lines| && inner == lines[start..i] && FenceLength(lines[start..]) == i - start
  {
    hide IsFenceLine;
    inner := [];
    i := start;
    while i < |lines| && !IsFenceLine(lines[i])
      invariant start <= i <= |lines|
      invariant inner == lines[start..i]
      invariant FenceLength(lines[start..]) == i - start + FenceLength(lines[i..])
    {
      assert lines[i..][1..] == lines[i + 1..];
      inner := inner + [lines[i]];
      i := i + 1;
    }
  }
}
