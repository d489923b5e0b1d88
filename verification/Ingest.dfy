/** internal/ingest/kinds.go and snapshot.go: from source text to a frozen snapshot. */
module Ingest {
  import opened Options
  import opened Text
  import opened Evidence
  import Parser
  import ParserProperties
  import BlockIds

  datatype KindedBlock = KindedBlock(id: string, kind: string, block: Parser.Block)

  function MapBlockKind(k: Parser.BlockKind): (kind: string)
    ensures IsValidUnitKind(kind)
  {
    match k
    case Heading => "brief"
    case Paragraph => "requirement"
    case ListItem => "requirement"
    case TableRow => "data_rule"
    case Code => "constraint"
  }

  method AssignKinds(blocks: seq<BlockIds.IdentifiedBlock>) returns (out: seq<KindedBlock>)
    ensures |out| == |blocks|
    ensures forall i :: 0 <= i < |out| ==>
              out[i] == KindedBlock(blocks[i].id, MapBlockKind(blocks[i].block.kind), blocks[i].block)
  {
    out := [];
    for i := 0 to |blocks|
      invariant |out| == i
      invariant forall j :: 0 <= j < i ==>
                  out[j] == KindedBlock(blocks[j].id, MapBlockKind(blocks[j].block.kind), blocks[j].block)
    {
      out := out + [KindedBlock(blocks[i].id, MapBlockKind(blocks[i].block.kind), blocks[i].block)];
    }
  }

  datatype IngestError = NoEvidenceUnits | FreezeFailed(error: FreezeError)

  /** The units of a document whose blocks are named ids. */
  ghost predicate UnitsOf(content: string, ids: seq<string>, units: seq<Unit>)
  {
    var blocks := Parser.Parsed(content);
    && BlockIds.Assigned(blocks, ids) && |units| == |blocks|
    && forall i :: 0 <= i < |units| ==> units[i] == Unit(ids[i], MapBlockKind(blocks[i].kind), blocks[i].text)
  }

  /** Whatever the source, the units pass every check Freeze makes of them. */
  lemma UnitsAreOk(content: string, ids: seq<string>, units: seq<Unit>)
    requires UnitsOf(content, ids, units)
    ensures UnitsOk(units)
  {
    hide Parser.Parsed, BlockIds.IdRule, Blank, IsValidUnitKind;
    var blocks := Parser.Parsed(content);
    ParserProperties.ParsedNumbered(content);
    BlockIds.IdsUnique(blocks, ids);
    forall i | 0 <= i < |units| ensures UnitOk(units[i]) {
      IdNotBlank(blocks, ids, i);
      assert !Blank(blocks[i].text) && IsValidUnitKind(MapBlockKind(blocks[i].kind));
    }
    assert forall u :: u in units ==> UnitOk(u);
  }

  lemma IdNotBlank(blocks: seq<Parser.Block>, ids: seq<string>, i: nat)
    requires BlockIds.Assigned(blocks, ids) && i < |blocks|
    ensures !Blank(ids[i])
  {
    hide Blank, BlockIds.IsToken, BlockIds.Before, BlockIds.IsBase;
    assert BlockIds.IdRule(blocks[i], BlockIds.Before(ids, i), ids[i]);
    var base :| BlockIds.IsBase(blocks[i], base) && BlockIds.Picked(base, BlockIds.Before(ids, i), ids[i]);
    assert base != "" && !IsSpace(base[0]) by {
      BaseStart(blocks[i], base);
    }
    assert ids[i] != "" && ids[i][0] == base[0];
    TrimEdges(ids[i]);
  }

  lemma BaseStart(b: Parser.Block, base: string)
    requires BlockIds.IsBase(b, base)
    ensures base != "" && !IsSpace(base[0])
  {
    if BlockIds.HasToken(b, base) {
      var k: nat :| k < |base| && BlockIds.TokenAt(base, k);
      assert BlockIds.IsLetter(base[0]);
    }
  }

  /**
   * The only failures are an empty document and a blank snapshot ID: no parsed document is refused
   * by Freeze for its units.
   */
  method BuildSnapshot(id: string, source: string) returns (r: Result<Snapshot, IngestError>)
    ensures r == Err(NoEvidenceUnits) <==> Parser.Parsed(source) == []
    ensures Parser.Parsed(source) != [] ==>
              if Blank(id) then r == Err(FreezeFailed(BlankSnapshotId)) else r.Ok?
    ensures r.Ok? ==> exists ids, units :: UnitsOf(source, ids, units) && r.value == Frozen(id, units)
  {
    hide Parser.Parsed, BlockIds.Assigned, Blank, UnitsOk, CanonicalHash;
    var blocks := Parser.ParseBlocks(source);
    var identified := BlockIds.AssignIds(blocks);
    var kinded := AssignKinds(identified);
    if |blocks| == 0 {
      return Err(NoEvidenceUnits);
    }
    var units: seq<Unit> := [];
    for i := 0 to |kinded|
      invariant |units| == i
      invariant forall j :: 0 <= j < i ==> units[j] == Unit(kinded[j].id, kinded[j].kind, kinded[j].block.text)
    {
      units := units + [Unit(kinded[i].id, kinded[i].kind, kinded[i].block.text)];
    }
    ghost var ids := BlockIds.IdsOf(identified);
    assert UnitsOf(source, ids, units);
    UnitsAreOk(source, ids, units);
    var frozen := Freeze(id, units);
    match frozen
    case Ok(snapshot) => return Ok(snapshot);
    case Err(e) => return Err(FreezeFailed(e));
  }

  /** One source and one ID give one snapshot: the specification above has a single solution. */
  lemma SnapshotDetermined(source: string, xs: seq<string>, ys: seq<string>, units: seq<Unit>, others: seq<Unit>)
    requires UnitsOf(source, xs, units) && UnitsOf(source, ys, others)
    ensures units == others
  {
    hide Parser.Parsed, BlockIds.IdRule;
    var blocks := Parser.Parsed(source);
    BlockIds.AssignedUnique(blocks, xs, ys, |blocks|);
    assert xs[..|blocks|] == xs && ys[..|blocks|] == ys;
  }

  /** On a parsed document the k-th block with author token T is T, T-2, T-3, ...; others are u and their order. */
  lemma ParsedClosedForm(source: string, ids: seq<string>)
    requires BlockIds.Assigned(Parser.Parsed(source), ids)
    ensures forall i :: 0 <= i < |ids| ==> BlockIds.ClosedForm(Parser.Parsed(source), i, ids[i])
    ensures forall i :: 0 <= i < |ids| ==> Parser.Parsed(source)[i].order == i
  {
    hide Parser.Parsed, BlockIds.ClosedForm;
    var blocks := Parser.Parsed(source);
    ParserProperties.ParsedNumbered(source);
    BlockIds.AssignedClosedForm(blocks, ids, |blocks|);
  }
}
