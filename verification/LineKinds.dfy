/** What single lines and fenced lines become, told from their characters, and what kind of evidence that gives. */
module LineKinds {
  import opened Options
  import opened Text
  import opened Parser
  import opened ParserProperties
  import opened Evidence
  import BlockIds
  import Ingest

  // ---- Kinds of trimmed lines ------------------------------------------------------------------------------

  /** Three backquotes in front. */
  predicate FenceText(t: string)
  {
    |t| >= 3 && t[0] == '`' && t[1] == '`' && t[2] == '`'
  }

  /** One to six hashes, then a blank, then the rest. */
  predicate HeadingOf(t: string, n: nat, rest: string)
  {
    && 1 <= n <= 6 && n < |t| && (forall i :: 0 <= i < n ==> t[i] == '#') && t[n] == ' ' && rest == t[n + 1..]
  }

  /** A bar in front and another one later. */
  predicate RowText(t: string)
  {
    t != "" && t[0] == '|' && exists i :: 1 <= i < |t| && t[i] == '|'
  }

  /** After a bullet or a number with a dot or a parenthesis comes nothing, or a blank and the rest. */
  predicate ItemOf(t: string, n: nat, rest: string)
  {
    && n <= |t| && (MarkerText(t[..n]) && (t[n..] == rest == "" || (n < |t| && t[n] == ' ' && rest == t[n + 1..])))
  }

  predicate MarkerText(m: string)
  {
    || m == "-" || m == "*" || m == "+"
    || (|m| >= 2 && (m[|m| - 1] == '.' || m[|m| - 1] == ')') && forall i :: 0 <= i < |m| - 1 ==> '0' <= m[i] <= '9')
  }

  lemma FenceIs(t: string)
    ensures IsFence(t) <==> FenceText(t)
  {
    if |t| >= 3 {
      assert t[..3] == [t[0], t[1], t[2]];
    }
  }

  lemma HeadingIs(t: string, n: nat, rest: string)
    requires HeadingOf(t, n, rest)
    ensures HeadingText(t) == Some(TrimSpace(rest))
  {
    RunIs(t, IsHash, n);
    assert t[n..] == " " + rest;
    TrimBlank(rest);
  }

  lemma {:induction false} RunIs(s: string, p: char -> bool, n: nat)
    requires n <= |s| && (forall i :: 0 <= i < n ==> p(s[i])) && (n < |s| ==> !p(s[n]))
    ensures Run(s, p) == n
  {
    if n > 0 {
      RunIs(s[1..], p, n - 1);
    }
  }

  lemma TrimBlank(rest: string)
    ensures TrimSpace(" " + rest) == TrimSpace(rest)
  {
    hide TrimRight;
    assert (" " + rest)[1..] == rest;
  }

  lemma HeadingFound(t: string)
    requires HeadingText(t).Some?
    ensures exists n: nat, rest :: HeadingOf(t, n, rest)
  {
    var n := Run(t, IsHash);
    assert HeadingOf(t, n, t[n + 1..]);
  }

  lemma RowIs(t: string)
    ensures IsTableRow(t) <==> RowText(t)
  {
    if t != "" {
      assert t[..1] == [t[0]];
      if i :| 1 <= i < |t| && t[i] == '|' {
        assert t[1..][i - 1] == '|';
      }
    }
  }

  lemma ItemIs(t: string, n: nat, rest: string)
    requires ItemOf(t, n, rest)
    ensures ListItemText(t) == Some(TrimSpace(rest))
  {
    var m := t[..n];
    if m == "-" || m == "*" || m == "+" {
      assert n == 1 && t[0] == m[0];
    } else {
      forall i | 0 <= i < n - 1 ensures IsDigit(t[i]) {
        assert m[i] == t[i];
      }
      assert t[n - 1] == m[n - 1];
      RunIs(t, IsDigit, n - 1);
      assert IsDigit(t[0]);
    }
    assert t[n..] == rest == "" || t[n..] == " " + rest;
    assert (" " + rest)[1..] == rest;
  }

  lemma ItemFound(t: string)
    requires ListItemText(t).Some?
    ensures exists n: nat, rest :: ItemOf(t, n, rest)
  {
    var n := if t[0] in "-*+" then 1 else OrderedMarker(t).value;
    assert t[..n][n - 1] == t[n - 1];
    assert ItemOf(t, n, if n == |t| then "" else t[n + 1..]);
  }

  // ---- Documents of one line -------------------------------------------------------------------------------

  /** One block, unless its text is empty. */
  function TextBlock(kind: BlockKind, text: string): seq<Block>
  {
    if text == "" then [] else [Block(kind, text, 0)]
  }

  lemma SingleLine(line: string)
    requires NoLineEnd(line) && line != ""
    ensures Parsed(line) == Blocks(Segments([], [line]), 0)
  {
    hide Segments, Blocks, DropTrailingEmpty, SplitLines;
    LineEndsDoNotMatter([line], "\n");
    assert Join([line], "\n") == line;
    ParsedLinesBlocks([line]);
    NotEmptyLast(line);
  }

  lemma NotEmptyLast(line: string)
    requires line != ""
    ensures DropTrailingEmpty([line]) == [line]
  {
  }

  lemma OneSegment(line: string)
    requires !IsFenceLine(line)
    ensures Segments([], [line]) == [if IsProse(line) then Prose([line]) else SegmentAt([line])]
  {
    hide IsProse, SegmentAt, IsFenceLine;
    assert [line][1..] == [] && [] + [line] == [line];
  }

  lemma OneBlock(s: Segment)
    ensures Blocks([s], 0) == BlockOf(s, 0)
  {
    hide BlockOf;
    assert [s][1..] == [];
  }

  /** At most one of the classes holds of a line. */
  lemma ClassesDiffer(t: string)
    ensures forall n: nat, rest :: HeadingOf(t, n, rest) ==> t != "" && t[0] == '#'
    ensures forall n: nat, rest :: ItemOf(t, n, rest) ==> t != "" && (t[0] in "-*+" || '0' <= t[0] <= '9')
    ensures FenceText(t) ==> t[0] == '`'
    ensures RowText(t) ==> t != "" && t[0] == '|'
  {
    forall n: nat, rest | ItemOf(t, n, rest) ensures t != "" && (t[0] in "-*+" || '0' <= t[0] <= '9') {
      assert t[..n][0] == t[0];
    }
  }

  /** A heading found is the one heading, and so for an item. */
  lemma ClassesFound(t: string)
    ensures HeadingText(t).Some? <==> exists n: nat, rest :: HeadingOf(t, n, rest)
    ensures ListItemText(t).Some? <==> exists n: nat, rest :: ItemOf(t, n, rest)
  {
    hide HeadingOf, ItemOf, HeadingText, ListItemText;
    if n: nat, rest :| HeadingOf(t, n, rest) {
      HeadingIs(t, n, rest);
    }
    if n: nat, rest :| ItemOf(t, n, rest) {
      ItemIs(t, n, rest);
    }
    if HeadingText(t).Some? {
      HeadingFound(t);
    }
    if ListItemText(t).Some? {
      ItemFound(t);
    }
  }

  /** A line that is not a fence gives one block of its segment's kind, or none. */
  lemma LineGives(line: string)
    requires NoLineEnd(line) && line != "" && !IsFenceLine(line)
    ensures var t := TrimSpace(line);
            Parsed(line) == if t == "" then []
                            else if HeadingText(t).Some? then TextBlock(Heading, HeadingText(t).value)
                            else if IsTableRow(t) then [Block(TableRow, t, 0)]
                            else if ListItemText(t).Some? then TextBlock(ListItem, ListItemText(t).value)
                            else [Block(Paragraph, t, 0)]
  {
    hide TrimSpace, HeadingText, ListItemText, IsTableRow, IsFence, NoLineEnd, Segments, Blocks, Parsed;
    SingleLine(line);
    OneSegment(line);
    if IsProse(line) {
      OneBlock(Prose([line]));
      assert Join([line], "\n") == line;
    } else {
      OneBlock(SegmentAt([line]));
    }
  }

  lemma EmptyDocument()
    ensures Parsed("") == [] && TrimSpace("") == ""
  {
    assert Segments([], []) == [];
  }

  /** The lines of a fenced block, the closing one unless the document ends first. */
  function FenceLines(opening: string, inner: seq<string>, closing: Option<string>): seq<string>
  {
    [opening] + inner + if closing.Some? then [closing.value] else []
  }

  /** A document that is one fenced block gives its lines verbatim, if they are not blank. */
  lemma FencedDocument(opening: string, inner: seq<string>, closing: Option<string>)
    requires forall line :: line in FenceLines(opening, inner, closing) ==> NoLineEnd(line)
    requires FenceText(TrimSpace(opening)) && (closing.Some? ==> FenceText(TrimSpace(closing.value)))
    requires forall line :: line in inner ==> !FenceText(TrimSpace(line))
    requires closing.None? && inner != [] ==> inner[|inner| - 1] != ""
    ensures var text := Join(inner, "\n");
            Parsed(Join(FenceLines(opening, inner, closing), "\n"))
              == if Blank(text) then [] else [Block(Code, text, 0)]
  {
    hide TrimSpace, FenceText, NoLineEnd, Parsed, Segments, Blocks, IsFence, SplitLines, Join, FenceLines,
      DropTrailingEmpty, BlockOf;
    var lines, s := FenceLines(opening, inner, closing), Fenced(opening, inner, closing);
    LineEndsDoNotMatter(lines, "\n");
    ParsedLinesBlocks(lines);
    LastLine(opening, inner, closing);
    FenceSegment(opening, inner, closing);
    SegmentationUnique(lines, [s]);
    OneBlock(s);
    FenceBlock(s);
  }

  lemma FenceBlock(s: Segment)
    requires s.Fenced?
    ensures BlockOf(s, 0) == if Blank(Join(s.inner, "\n")) then [] else [Block(Code, Join(s.inner, "\n"), 0)]
  {
  }

  lemma FenceSegment(opening: string, inner: seq<string>, closing: Option<string>)
    requires FenceText(TrimSpace(opening)) && (closing.Some? ==> FenceText(TrimSpace(closing.value)))
    requires forall line :: line in inner ==> !FenceText(TrimSpace(line))
    ensures var s := Fenced(opening, inner, closing);
            WellFormed([s]) && AllLines([s]) == FenceLines(opening, inner, closing)
  {
    hide TrimSpace, FenceText, IsFence;
    var s := Fenced(opening, inner, closing);
    forall line ensures IsFenceLine(line) <==> FenceText(TrimSpace(line)) {
      FenceIs(TrimSpace(line));
    }
    assert SegmentOk(s);
    assert [s][1..] == [] && LinesOf(s) + [] == FenceLines(opening, inner, closing);
  }

  lemma LastLine(opening: string, inner: seq<string>, closing: Option<string>)
    requires FenceText(TrimSpace(opening)) && (closing.Some? ==> FenceText(TrimSpace(closing.value)))
    requires closing.None? && inner != [] ==> inner[|inner| - 1] != ""
    ensures DropTrailingEmpty(FenceLines(opening, inner, closing)) == FenceLines(opening, inner, closing)
    ensures FenceLines(opening, inner, closing) != []
  {
    assert TrimSpace("") == "";
  }

  lemma LoneFence(line: string)
    ensures Join(FenceLines(line, [], None), "\n") == line && Blank(Join([], "\n"))
    ensures FenceLines(line, [], None) == [line]
  {
  }

  /** What a document of one line gives, told from the characters of the line. */
  lemma OneLineDocument(line: string)
    requires NoLineEnd(line)
    ensures var t := TrimSpace(line);
            && (t == "" || FenceText(t) ==> Parsed(line) == [])
            && (forall n: nat, rest :: HeadingOf(t, n, rest) ==> Parsed(line) == TextBlock(Heading, TrimSpace(rest)))
            && (RowText(t) ==> Parsed(line) == [Block(TableRow, t, 0)])
            && (forall n: nat, rest :: ItemOf(t, n, rest) ==> Parsed(line) == TextBlock(ListItem, TrimSpace(rest)))
            && (t != "" && !FenceText(t) && !RowText(t) && (forall n: nat, rest :: !HeadingOf(t, n, rest))
                && (forall n: nat, rest :: !ItemOf(t, n, rest)) ==>
                  Parsed(line) == [Block(Paragraph, t, 0)])
  {
    hide TrimSpace, HeadingText, ListItemText, IsTableRow, IsFence, NoLineEnd, Parsed, HeadingOf, ItemOf, RowText,
      FenceText, TextBlock;
    var t := TrimSpace(line);
    FenceIs(t);
    RowIs(t);
    ClassesFound(t);
    ClassesDiffer(t);
    if line == "" {
      EmptyDocument();
    } else if FenceText(t) {
      FencedDocument(line, [], None);
      LoneFence(line);
    } else {
      LineGives(line);
      forall n: nat, rest | HeadingOf(t, n, rest) ensures Parsed(line) == TextBlock(Heading, TrimSpace(rest)) {
        HeadingIs(t, n, rest);
      }
      forall n: nat, rest | ItemOf(t, n, rest) ensures Parsed(line) == TextBlock(ListItem, TrimSpace(rest)) {
        ItemIs(t, n, rest);
      }
    }
  }

  // ---- The evidence they give --------------------------------------------------------------------------------------

  /** The kind of evidence each block is. */
  lemma UnitKinds(source: string, ids: seq<string>, units: seq<Unit>, i: nat)
    requires Ingest.UnitsOf(source, ids, units) && i < |units|
    ensures |Parsed(source)| == |units| && units[i].text == Parsed(source)[i].text
    ensures match Parsed(source)[i].kind
            case Heading => units[i].kind == "brief"
            case Paragraph => units[i].kind == "requirement"
            case ListItem => units[i].kind == "requirement"
            case TableRow => units[i].kind == "data_rule"
            case Code => units[i].kind == "constraint"
  {
    hide Parsed;
  }

  /** A snapshot built from one line has at most one unit, whose kind the characters of the line tell. */
  lemma OneLineUnit(line: string, ids: seq<string>, units: seq<Unit>)
    requires NoLineEnd(line) && Ingest.UnitsOf(line, ids, units)
    ensures |units| <= 1
    ensures var t := TrimSpace(line);
            && (RowText(t) ==> units != [])
            && (units != [] ==>
                  && (RowText(t) ==> units[0].kind == "data_rule" && units[0].text == t)
                  && (forall n: nat, rest :: HeadingOf(t, n, rest) ==>
                        units[0].kind == "brief" && units[0].text == TrimSpace(rest))
                  && (forall n: nat, rest :: ItemOf(t, n, rest) ==>
                        units[0].kind == "requirement" && units[0].text == TrimSpace(rest)))
  {
    hide TrimSpace, Parsed, HeadingOf, ItemOf, RowText, FenceText, NoLineEnd;
    LineBlocks(line);
    OneLineDocument(line);
    if units != [] {
      UnitKinds(line, ids, units, 0);
    }
  }

  lemma LineBlocks(line: string)
    requires NoLineEnd(line)
    ensures |Parsed(line)| <= 1
  {
    hide TrimSpace, Parsed, HeadingOf, ItemOf, RowText, FenceText, NoLineEnd;
    OneLineDocument(line);
  }

  /** One built from a fenced block that is not blank has its lines as one constraint. */
  lemma FencedUnit(opening: string, inner: seq<string>, closing: Option<string>, ids: seq<string>, units: seq<Unit>)
    requires forall line :: line in FenceLines(opening, inner, closing) ==> NoLineEnd(line)
    requires FenceText(TrimSpace(opening)) && (closing.Some? ==> FenceText(TrimSpace(closing.value)))
    requires forall line :: line in inner ==> !FenceText(TrimSpace(line))
    requires closing.None? && inner != [] ==> inner[|inner| - 1] != ""
    requires Ingest.UnitsOf(Join(FenceLines(opening, inner, closing), "\n"), ids, units)
    ensures if Blank(Join(inner, "\n")) then units == []
            else |units| == 1 && units[0].kind == "constraint" && units[0].text == Join(inner, "\n")
  {
    hide TrimSpace, FenceText, NoLineEnd, Parsed, Join, FenceLines, Blank;
    FencedDocument(opening, inner, closing);
    if units != [] {
      UnitKinds(Join(FenceLines(opening, inner, closing), "\n"), ids, units, 0);
    }
  }

  /** The earlier blocks with the same author token. */
  function EarlierWith(blocks: seq<Block>, i: nat, t: string): set<nat>
    requires i <= |blocks|
  {
    set j: nat | j < i && !blocks[j].kind.Code? && BlockIds.StartsWithToken(blocks[j].text, t)
  }

  lemma {:induction false} CountIsSize(blocks: seq<Block>, i: nat, t: string)
    requires i <= |blocks|
    ensures BlockIds.Count(blocks[..i], t) == |EarlierWith(blocks, i, t)|
  {
    hide BlockIds.StartsWithToken;
    if i > 0 {
      CountIsSize(blocks, i - 1, t);
      assert blocks[..i][..i - 1] == blocks[..i - 1];
      assert EarlierWith(blocks, i, t) == EarlierWith(blocks, i - 1, t)
        + if !blocks[i - 1].kind.Code? && BlockIds.StartsWithToken(blocks[i - 1].text, t) then {i - 1} else {};
    }
  }

  /**
   * The ID of a unit: an author token the first time, the token with a hyphen and a count after that, and otherwise u
   * and the position.
   */
  lemma UnitIds(source: string, ids: seq<string>, units: seq<Unit>, i: nat)
    requires Ingest.UnitsOf(source, ids, units) && i < |units|
    ensures var blocks := Parsed(source);
            && |blocks| == |units|
            && (forall t :: !blocks[i].kind.Code? && BlockIds.StartsWithToken(blocks[i].text, t) ==>
                  units[i].id == if EarlierWith(blocks, i, t) == {} then t
                                 else t + "-" + Itoa(|EarlierWith(blocks, i, t)| + 1))
            && (blocks[i].kind.Code? || (forall t :: !BlockIds.StartsWithToken(blocks[i].text, t)) ==>
                  units[i].id == "u" + Itoa(i))
  {
    hide Parsed, BlockIds.StartsWithToken, BlockIds.IdRule, Itoa;
    Ingest.ParsedClosedForm(source, ids);
    forall t ensures BlockIds.Count(Parsed(source)[..i], t) == |EarlierWith(Parsed(source), i, t)| {
      CountIsSize(Parsed(source), i, t);
    }
    assert BlockIds.ClosedForm(Parsed(source), i, ids[i]);
  }
}
