/** What ParseBlocks promises: the lines are partitioned in exactly one way, blocks are numbered in
    order and never blank, a blank line outside a fence separates, and line ends do not matter. */
module ParserProperties {
  import opened Text
  import opened Parser

  // ---- The partition ---------------------------------------------------------------

  predicate IsHeadingLine(line: string)
  {
    !Blank(line) && !IsFenceLine(line) && HeadingText(TrimSpace(line)).Some?
  }

  predicate IsTableLine(line: string)
  {
    !Blank(line) && !IsFenceLine(line) && HeadingText(TrimSpace(line)).None? && IsTableRow(TrimSpace(line))
  }

  predicate IsItemLine(line: string)
  {
    !Blank(line) && !IsFenceLine(line) && HeadingText(TrimSpace(line)).None? && !IsTableRow(TrimSpace(line))
    && ListItemText(TrimSpace(line)).Some?
  }

  ghost predicate SegmentOk(s: Segment)
  {
    match s
    case BlankLine(line) => Blank(line)
    case HeadingLine(line) => IsHeadingLine(line)
    case TableLine(line) => IsTableLine(line)
    case ItemLine(line) => IsItemLine(line)
    case Prose(lines) => lines != [] && forall l :: l in lines ==> IsProse(l)
    case Fenced(opening, inner, closing) =>
      && IsFenceLine(opening)
      && (forall l :: l in inner ==> !IsFenceLine(l))
      && (closing.Some? ==> IsFenceLine(closing.value))
  }

  predicate Open(s: Segment)
  {
    s.Fenced? && s.closing.None?
  }

  /** What may follow a segment: prose never continues prose, and nothing follows an open fence. */
  predicate MayFollow(s: Segment, t: Segment)
  {
    !Open(s) && !(s.Prose? && t.Prose?)
  }

  ghost predicate WellFormed(segments: seq<Segment>)
  {
    && (forall i :: 0 <= i < |segments| ==> SegmentOk(segments[i]))
    && (forall i :: 0 < i < |segments| ==> MayFollow(segments[i - 1], segments[i]))
  }

  predicate Joins(pending: seq<string>, segments: seq<Segment>)
  {
    pending == [] || segments == [] || !segments[0].Prose?
  }

  /** Where a segment starts, the classification finds that segment, whatever follows it. */
  lemma SegmentFound(s: Segment, rest: seq<string>)
    requires SegmentOk(s) && !s.Prose? && (Open(s) ==> rest == [])
    ensures var lines := LinesOf(s) + rest;
            lines != [] && !IsProse(lines[0]) && SegmentAt(lines) == s && Width(lines) == |LinesOf(s)|
  {
    hide SegmentOk, LinesOf, SegmentAt, Width, IsProse, Open;
    if s.Fenced? {
      FencedFound(s, rest);
    } else {
      LineFound(s, rest);
    }
  }

  lemma FencedFound(s: Segment, rest: seq<string>)
    requires SegmentOk(s) && s.Fenced? && (Open(s) ==> rest == [])
    ensures var lines := LinesOf(s) + rest;
            lines != [] && !IsProse(lines[0]) && SegmentAt(lines) == s && Width(lines) == |LinesOf(s)|
  {
    hide TrimSpace, HeadingText, ListItemText, IsTableRow, FenceLength;
    var lines := LinesOf(s) + rest;
    var after := (if s.closing.Some? then [s.closing.value] else []) + rest;
    assert lines[1..] == s.inner + after;
    FenceFound(s.inner, after);
    assert lines[1..|s.inner| + 1] == s.inner;
    assert !IsFence("");
  }

  lemma LineFound(s: Segment, rest: seq<string>)
    requires SegmentOk(s) && !s.Prose? && !s.Fenced?
    ensures var lines := LinesOf(s) + rest;
            lines != [] && !IsProse(lines[0]) && SegmentAt(lines) == s && Width(lines) == |LinesOf(s)|
  {
    hide TrimSpace, HeadingText, ListItemText, IsTableRow, FencedAt;
    assert (LinesOf(s) + rest)[0] == s.line;
    assert !IsFence("");
  }

  lemma {:induction false} FenceFound(inner: seq<string>, after: seq<string>)
    requires forall l :: l in inner ==> !IsFenceLine(l)
    requires after == [] || IsFenceLine(after[0])
    ensures FenceLength(inner + after) == |inner|
  {
    hide IsFenceLine;
    if inner == [] {
      assert inner + after == after;
    } else {
      assert inner[0] in inner;
      assert (inner + after)[1..] == inner[1..] + after;
      FenceFound(inner[1..], after);
    }
  }

  lemma {:induction false} ProseRun(pending: seq<string>, prose: seq<string>, rest: seq<string>)
    requires forall l :: l in prose ==> IsProse(l)
    ensures Segments(pending, prose + rest) == Segments(pending + prose, rest)
    decreases |prose|
  {
    hide IsProse;
    if prose == [] {
      assert prose + rest == rest && pending + prose == pending;
    } else {
      assert prose[0] in prose;
      assert (prose + rest)[1..] == prose[1..] + rest;
      ProseRun(pending + [prose[0]], prose[1..], rest);
      assert pending + [prose[0]] + prose[1..] == pending + prose;
    }
  }

  /** A well-formed list of segments is what the parser finds in its lines. */
  lemma {:induction false} SegmentsFound(pending: seq<string>, segments: seq<Segment>)
    requires WellFormed(segments) && Joins(pending, segments)
    ensures Segments(pending, AllLines(segments)) == Flush(pending) + segments
    decreases |segments|, |pending|
  {
    hide IsProse, SegmentAt, SegmentOk, Width, LinesOf;
    if segments == [] {
      assert Flush(pending) + segments == Flush(pending);
    } else {
      var s, rest := segments[0], segments[1..];
      TailWellFormed(segments);
      assert segments == [s] + rest;
      if s.Prose? {
        assert LinesOf(s) == s.lines && s.lines != [] && forall l :: l in s.lines ==> IsProse(l) by {
          ProseSegment(s);
        }
        ProseRun(pending, s.lines, AllLines(rest));
        assert pending + s.lines == s.lines;
        SegmentsFound(s.lines, rest);
      } else {
        SegmentFound(s, AllLines(rest));
        SegmentsFound([], rest);
        assert (LinesOf(s) + AllLines(rest))[|LinesOf(s)|..] == AllLines(rest);
        assert Flush([]) + rest == rest;
      }
    }
  }

  lemma ProseSegment(s: Segment)
    requires s.Prose? && SegmentOk(s)
    ensures LinesOf(s) == s.lines && s.lines != [] && forall l :: l in s.lines ==> IsProse(l)
  {
    hide IsProse;
  }

  lemma TailWellFormed(segments: seq<Segment>)
    requires segments != [] && WellFormed(segments)
    ensures SegmentOk(segments[0]) && WellFormed(segments[1..])
    ensures segments[0].Prose? ==> Joins(segments[0].lines, segments[1..])
    ensures Open(segments[0]) ==> AllLines(segments[1..]) == []
  {
    hide SegmentOk;
    var rest := segments[1..];
    forall i | 0 < i < |rest| ensures MayFollow(rest[i - 1], rest[i]) {
      assert MayFollow(segments[i], segments[i + 1]);
    }
    if rest != [] {
      assert MayFollow(segments[0], segments[1]);
    }
  }

  /** What the parser finds is a partition of the lines, in order, into well-formed segments. */
  lemma {:induction false} Partitions(pending: seq<string>, lines: seq<string>)
    requires forall l :: l in pending ==> IsProse(l)
    ensures AllLines(Segments(pending, lines)) == pending + lines
    ensures WellFormed(Segments(pending, lines))
    ensures Segments(pending, lines) == [] || pending == [] || Segments(pending, lines)[0].Prose?
    decreases |lines|
  {
    hide IsProse, SegmentAt, SegmentOk, Width, LinesOf;
    if lines == [] {
      if pending != [] {
        ProseIsSegment(pending);
        assert AllLines([Prose(pending)]) == LinesOf(Prose(pending)) + AllLines([]);
      }
    } else if IsProse(lines[0]) {
      Partitions(pending + [lines[0]], lines[1..]);
      assert pending + [lines[0]] + lines[1..] == pending + lines;
    } else {
      var s, rest := SegmentAt(lines), lines[Width(lines)..];
      SegmentAtOk(lines);
      Partitions([], rest);
      var tail := [s] + Segments([], rest);
      assert tail[1..] == Segments([], rest);
      Prepend(s, Segments([], rest));
      assert AllLines(tail) == lines[..Width(lines)] + rest == lines;
      if pending == [] {
        assert Segments(pending, lines) == tail;
      } else {
        ProseIsSegment(pending);
        Prepend(Prose(pending), tail);
        assert ([Prose(pending)] + tail)[1..] == tail;
        assert AllLines([Prose(pending)] + tail) == LinesOf(Prose(pending)) + AllLines(tail);
      }
    }
  }

  lemma ProseIsSegment(lines: seq<string>)
    requires lines != [] && forall l :: l in lines ==> IsProse(l)
    ensures SegmentOk(Prose(lines)) && LinesOf(Prose(lines)) == lines
  {
    hide IsProse;
  }

  lemma Prepend(s: Segment, segments: seq<Segment>)
    requires SegmentOk(s) && WellFormed(segments) && (segments == [] || MayFollow(s, segments[0]))
    ensures WellFormed([s] + segments)
  {
    hide SegmentOk;
    var all := [s] + segments;
    forall i | 0 < i < |all| ensures MayFollow(all[i - 1], all[i]) {
      if i > 1 {
        assert MayFollow(segments[i - 2], segments[i - 1]);
      }
    }
  }

  lemma SegmentAtOk(lines: seq<string>)
    requires lines != [] && !IsProse(lines[0])
    ensures var s := SegmentAt(lines);
            SegmentOk(s) && !s.Prose? && LinesOf(s) == lines[..Width(lines)] && (Open(s) ==> Width(lines) == |lines|)
  {
    hide TrimSpace, HeadingText, ListItemText, IsTableRow, IsFence;
    var s := SegmentAt(lines);
    if s.Fenced? {
      var n := FenceLength(lines[1..]);
      forall l | l in s.inner ensures !IsFenceLine(l) {
        var i :| 0 <= i < n && s.inner[i] == l;
        assert lines[1..][i] == l;
      }
      FenceIsNotBlank();
      assert lines[..Width(lines)] == LinesOf(s);
    } else {
      assert lines[..1] == [lines[0]];
      FenceIsNotBlank();
    }
  }

  lemma FenceIsNotBlank()
    ensures !IsFence("")
  {
  }

  /** There is exactly one way to divide lines into well-formed segments, and the parser finds it. */
  lemma SegmentationUnique(lines: seq<string>, segments: seq<Segment>)
    ensures WellFormed(segments) && AllLines(segments) == lines <==> segments == Segments([], lines)
  {
    Partitions([], lines);
    if WellFormed(segments) && AllLines(segments) == lines {
      SegmentsFound([], segments);
      assert Flush([]) + segments == segments;
    }
  }

  // ---- Blocks ------------------------------------------------------------------------

  /** Blocks are numbered from the start, and no block is blank. */
  lemma {:induction false} BlocksNumbered(segments: seq<Segment>, order: nat)
    requires WellFormed(segments)
    ensures forall i :: 0 <= i < |Blocks(segments, order)| ==>
              Blocks(segments, order)[i].order == order + i && !Blank(Blocks(segments, order)[i].text)
    ensures |Blocks(segments, order)| <= |segments|
  {
    hide BlockOf, SegmentOk;
    if segments != [] {
      TailWellFormed(segments);
      BlockNotBlank(segments[0], order);
      BlocksNumbered(segments[1..], order + |BlockOf(segments[0], order)|);
    }
  }

  lemma BlockNotBlank(s: Segment, order: nat)
    requires SegmentOk(s)
    ensures var b := BlockOf(s, order);
            |b| <= 1 && forall i :: 0 <= i < |b| ==> b[i].order == order && !Blank(b[i].text)
  {
    hide TrimSpace, IsFence, IsTableRow, IsProse, Join;
    match s
    case TableLine(line) => TrimIdempotent(line);
    case HeadingLine(line) => TrimmedText(TrimSpace(line));
    case ItemLine(line) => TrimmedText(TrimSpace(line));
    case Prose(lines) => TrimIdempotent(Join(lines, "\n"));
    case _ =>
  }

  /** Heading and list item texts are trimmed already. */
  lemma TrimmedText(line: string)
    ensures HeadingText(line).Some? && HeadingText(line).value != "" ==> !Blank(HeadingText(line).value)
    ensures ListItemText(line).Some? && ListItemText(line).value != "" ==> !Blank(ListItemText(line).value)
  {
    hide TrimSpace, Run, IsDigit;
    var hashes := Run(line, IsHash);
    TrimIdempotent(line[hashes..]);
    if line != "" && line[1..] != "" {
      TrimIdempotent(line[1..][1..]);
    }
    var marker := OrderedMarker(line);
    if marker.Some? && line[marker.value..] != "" {
      TrimIdempotent(line[marker.value..][1..]);
    }
  }

  /** Every parsed block is a segment's block: orders are 0, 1, ..., and code keeps its own lines. */
  lemma ParsedNumbered(content: string)
    ensures forall i :: 0 <= i < |Parsed(content)| ==> Parsed(content)[i].order == i && !Blank(Parsed(content)[i].text)
  {
    Partitions([], SplitLines(content));
    hide *;
    BlocksNumbered(Segments([], SplitLines(content)), 0);
    assert Parsed(content) == Blocks(Segments([], SplitLines(content)), 0) by { ParsedBlocks(content); }
  }

  lemma ParsedBlocks(content: string)
    ensures Parsed(content) == Blocks(Segments([], SplitLines(content)), 0)
  {
  }

  // ---- A blank line outside a fence separates --------------------------------------------

  function ParsedLines(lines: seq<string>): seq<Block>
  {
    Blocks(Segments([], lines), 0)
  }

  function Shift(blocks: seq<Block>, offset: nat): (r: seq<Block>)
    ensures |r| == |blocks|
  {
    seq(|blocks|, i requires 0 <= i < |blocks| => blocks[i].(order := blocks[i].order + offset))
  }

  predicate EndsInsideFence(lines: seq<string>)
  {
    var segments := Segments([], lines);
    segments != [] && Open(segments[|segments| - 1])
  }

  lemma BlocksFirst(segments: seq<Segment>, order: nat)
    requires segments != []
    ensures Blocks(segments, order)
         == BlockOf(segments[0], order) + Blocks(segments[1..], order + |BlockOf(segments[0], order)|)
  {
    hide BlockOf;
  }

  lemma BlocksNone(order: nat, offset: nat)
    ensures Blocks([], order) == [] && Shift([], offset) == []
  {
  }

  lemma {:induction false} BlocksShift(segments: seq<Segment>, order: nat, offset: nat)
    ensures Blocks(segments, order + offset) == Shift(Blocks(segments, order), offset)
  {
    hide BlockOf, Shift, Blocks;
    if segments == [] {
      BlocksNone(order, offset);
      BlocksNone(order + offset, offset);
    } else {
      BlockShift(segments[0], order, offset);
      BlocksFirst(segments, order);
      BlocksFirst(segments, order + offset);
      var first := BlockOf(segments[0], order);
      BlocksShift(segments[1..], order + |first|, offset);
      ShiftAppend(first, Blocks(segments[1..], order + |first|), offset);
    }
  }

  lemma ShiftAppend(xs: seq<Block>, ys: seq<Block>, offset: nat)
    ensures Shift(xs + ys, offset) == Shift(xs, offset) + Shift(ys, offset)
  {
  }

  lemma BlockShift(s: Segment, order: nat, offset: nat)
    ensures BlockOf(s, order + offset) == Shift(BlockOf(s, order), offset)
  {
    hide TrimSpace, HeadingText, ListItemText, Join;
  }

  lemma {:induction false} AllLinesAppend(xs: seq<Segment>, ys: seq<Segment>)
    ensures AllLines(xs + ys) == AllLines(xs) + AllLines(ys)
  {
    hide LinesOf;
    if xs == [] {
      assert xs + ys == ys;
    } else {
      assert (xs + ys)[1..] == xs[1..] + ys;
      AllLinesAppend(xs[1..], ys);
    }
  }

  lemma WellFormedAppend(xs: seq<Segment>, s: Segment, ys: seq<Segment>)
    requires WellFormed(xs) && WellFormed(ys) && SegmentOk(s) && s.BlankLine?
    requires xs != [] ==> !Open(xs[|xs| - 1])
    ensures WellFormed(xs + ([s] + ys))
  {
    hide SegmentOk;
    var all := xs + ([s] + ys);
    forall i | 0 < i < |all| ensures MayFollow(all[i - 1], all[i]) {
      if i < |xs| {
        assert MayFollow(xs[i - 1], xs[i]);
      } else if i > |xs| + 1 {
        assert MayFollow(ys[i - |xs| - 2], ys[i - |xs| - 1]);
      }
    }
  }

  /** The two sides of a blank line are parsed on their own, the second numbered after the first. */
  lemma BlankLineSeparates(a: seq<string>, blank: string, b: seq<string>)
    requires Blank(blank) && !EndsInsideFence(a)
    ensures ParsedLines(a + [blank] + b) == ParsedLines(a) + Shift(ParsedLines(b), |ParsedLines(a)|)
  {
    var xs, s, ys := Segments([], a), BlankLine(blank), Segments([], b);
    assert SegmentOk(s) && (xs != [] ==> !Open(xs[|xs| - 1]));
    hide *;
    Partitions([], a);
    Partitions([], b);
    WellFormedAppend(xs, s, ys);
    AllLinesAppend(xs, [s] + ys);
    AllLinesAppend([s], ys);
    BlankLines(s);
    assert [] + a == a && [] + b == b && a + [blank] + b == a + ([blank] + b);
    SegmentationUnique(a + [blank] + b, xs + ([s] + ys));
    BlankBlocks(xs, s, ys);
    forall lines ensures ParsedLines(lines) == Blocks(Segments([], lines), 0) { ParsedLinesBlocks(lines); }
  }

  lemma ParsedLinesBlocks(lines: seq<string>)
    ensures ParsedLines(lines) == Blocks(Segments([], lines), 0)
  {
  }

  lemma BlankLines(s: Segment)
    requires s.BlankLine?
    ensures AllLines([s]) == [s.line]
  {
  }

  lemma BlankBlock(s: Segment, order: nat)
    requires s.BlankLine?
    ensures BlockOf(s, order) == []
  {
  }

  lemma BlankBlocks(xs: seq<Segment>, s: Segment, ys: seq<Segment>)
    requires s.BlankLine?
    ensures Blocks(xs + ([s] + ys), 0) == Blocks(xs, 0) + Shift(Blocks(ys, 0), |Blocks(xs, 0)|)
  {
    hide BlockOf, Shift, Blocks;
    BlankBlock(s, |Blocks(xs, 0)|);
    BlocksAppend(xs, [s] + ys, 0);
    assert ([s] + ys)[1..] == ys;
    BlocksFirst([s] + ys, |Blocks(xs, 0)|);
    BlocksShift(ys, 0, |Blocks(xs, 0)|);
  }

  // ---- Line ends ---------------------------------------------------------------------------

  predicate NoLineEnd(s: string)
  {
    '\r' !in s && '\n' !in s
  }

  predicate IsLineEnd(sep: string)
  {
    sep == "\n" || sep == "\r\n" || sep == "\r"
  }

  lemma {:induction false} NormalizeText(line: string, rest: string)
    requires NoLineEnd(line)
    ensures Normalize(line + rest) == line + Normalize(rest)
  {
    if line == [] {
      assert line + rest == rest;
    } else {
      assert (line + rest)[1..] == line[1..] + rest && line[0] in line;
      NormalizeText(line[1..], rest);
    }
  }

  lemma {:induction false} SplitText(line: string, rest: string)
    requires NoLineEnd(line)
    ensures Split(line + rest) == [line + Split(rest)[0]] + Split(rest)[1..]
  {
    var parts := Split(rest);
    assert parts == [parts[0]] + parts[1..];
    if line == [] {
      assert line + rest == rest && line + parts[0] == parts[0];
    } else {
      assert (line + rest)[1..] == line[1..] + rest && line[0] in line;
      SplitText(line[1..], rest);
      assert [line[0]] + (line[1..] + parts[0]) == line + parts[0];
    }
  }

  lemma JoinFirst(lines: seq<string>, sep: string)
    requires |lines| > 1
    ensures Join(lines, sep) == lines[0] + (sep + Join(lines[1..], sep))
  {
    assert lines[0] + sep + Join(lines[1..], sep) == lines[0] + (sep + Join(lines[1..], sep));
  }

  lemma SplitAtNewline(line: string, rest: string)
    requires NoLineEnd(line)
    ensures Split(line + (['\n'] + rest)) == [line] + Split(rest)
  {
    SplitText(line, ['\n'] + rest);
    assert (['\n'] + rest)[1..] == rest;
    assert Split(['\n'] + rest) == [""] + Split(rest);
    assert line + "" == line;
  }

  /** Lines joined by any one line end come apart again as the same lines. */
  lemma {:induction false} SplitJoined(lines: seq<string>, sep: string)
    requires lines != [] && IsLineEnd(sep) && (forall l :: l in lines ==> NoLineEnd(l))
    ensures Split(Normalize(Join(lines, sep))) == lines
    decreases |lines|
  {
    var line := lines[0];
    assert line in lines;
    if |lines| == 1 {
      NormalizeText(line, "");
      SplitText(line, "");
      assert line + "" == line;
    } else {
      hide Split, Normalize, Join, NoLineEnd, IsLineEnd;
      SplitJoined(lines[1..], sep);
      JoinFirst(lines, sep);
      NormalizeText(line, sep + Join(lines[1..], sep));
      NormalizeEnd(sep, lines[1..]);
      SplitAtNewline(line, Normalize(Join(lines[1..], sep)));
      assert lines == [line] + lines[1..];
    }
  }

  lemma NormalizeEnd(sep: string, lines: seq<string>)
    requires lines != [] && IsLineEnd(sep) && (forall l :: l in lines ==> NoLineEnd(l))
    ensures Normalize(sep + Join(lines, sep)) == ['\n'] + Normalize(Join(lines, sep))
  {
    var rest := Join(lines, sep);
    assert lines[0] in lines;
    if sep == "\r" {
      assert rest == "" || rest[0] != '\n' by {
        if lines[0] != "" {
          assert lines[0][0] in lines[0];
        }
      }
      assert (sep + rest)[1..] == rest;
    } else if sep == "\r\n" {
      assert (sep + rest)[2..] == rest;
    } else {
      assert (sep + rest)[1..] == rest;
    }
  }

  /** LF, CRLF and CR documents with the same lines give the same blocks. */
  lemma LineEndsDoNotMatter(lines: seq<string>, sep: string)
    requires IsLineEnd(sep) && (forall l :: l in lines ==> NoLineEnd(l))
    ensures SplitLines(Join(lines, sep)) == DropTrailingEmpty(lines)
    ensures Parsed(Join(lines, sep)) == ParsedLines(DropTrailingEmpty(lines)) == Parsed(Join(lines, "\n"))
  {
    JoinedLines(lines, sep);
    JoinedLines(lines, "\n");
  }

  lemma JoinedLines(lines: seq<string>, sep: string)
    requires IsLineEnd(sep) && (forall l :: l in lines ==> NoLineEnd(l))
    ensures SplitLines(Join(lines, sep)) == DropTrailingEmpty(lines)
  {
    if lines != [] {
      SplitJoined(lines, sep);
      assert Join(lines, sep) == "" ==> |lines| == 1;
    }
  }
}
