/**
 * The user trailer block, block "5". Its content is a sequence of sub-blocks;
 * six codes (MAC, PAC, CHK, TNG, PDE, DLM) each fill one optional field and
 * every other sub-block is kept, by id, among the additional sub-blocks.
 */
module UserTrailer {
  import opened SwiftBlock

  const BlockId5: string := "5"

  /** The six known sub-block codes, in the order the content lists them. */
  const KnownCodeOrder: seq<string> := ["MAC", "PAC", "CHK", "TNG", "PDE", "DLM"]

  predicate IsKnownCode(id: string)
  {
    id == "MAC" || id == "PAC" || id == "CHK" || id == "TNG" || id == "PDE" || id == "DLM"
  }

  datatype UserTrailerBlock = UserTrailerBlock(
    messageAuthenticationCode: Option<string>,
    proprietaryAuthenticationCode: Option<string>,
    checksum: Option<string>,
    training: Option<string>,
    possibleDuplicateEmission: Option<string>,
    deliveryDelay: Option<string>,
    additionalSubblocks: map<string, GeneralBlock>)
  {
    function Id(): string
    {
      BlockId5
    }
  }

  /** The field that the sub-block code `code` fills. */
  function Field(t: UserTrailerBlock, code: string): Option<string>
    requires IsKnownCode(code)
  {
    match code
    case "MAC" => t.messageAuthenticationCode
    case "PAC" => t.proprietaryAuthenticationCode
    case "CHK" => t.checksum
    case "TNG" => t.training
    case "PDE" => t.possibleDuplicateEmission
    case _ => t.deliveryDelay
  }

  /**
   * The trailer's invariant: an additional sub-block is stored under its own
   * id, and that id is never one of the six known codes.
   */
  predicate Valid(t: UserTrailerBlock)
  {
    forall id :: id in t.additionalSubblocks ==>
      !IsKnownCode(id) && t.additionalSubblocks[id].id == id
  }

  /**
   * The constructor: the six fields may be absent (null in the source); the
   * map of additional sub-blocks must be given.
   */
  function Create(messageAuthenticationCode: Option<string>, proprietaryAuthenticationCode: Option<string>,
                  checksum: Option<string>, training: Option<string>,
                  possibleDuplicateEmission: Option<string>, deliveryDelay: Option<string>,
                  additionalSubblocks: Option<map<string, GeneralBlock>>): (r: Result<UserTrailerBlock>)
    ensures r.Failure? <==> additionalSubblocks.None?
    ensures r.Failure? ==> r.error == IllegalArgument
    ensures r.Success? ==>
              && r.value.messageAuthenticationCode == messageAuthenticationCode
              && r.value.proprietaryAuthenticationCode == proprietaryAuthenticationCode
              && r.value.checksum == checksum
              && r.value.training == training
              && r.value.possibleDuplicateEmission == possibleDuplicateEmission
              && r.value.deliveryDelay == deliveryDelay
              && r.value.additionalSubblocks == additionalSubblocks.value
  {
    match additionalSubblocks
    case None => Failure(IllegalArgument)
    case Some(m) =>
      Success(UserTrailerBlock(messageAuthenticationCode, proprietaryAuthenticationCode, checksum,
                               training, possibleDuplicateEmission, deliveryDelay, m))
  }

  /** The additional sub-block stored under `id`, if any. */
  function AdditionalSubblock(t: UserTrailerBlock, id: string): (r: Option<GeneralBlock>)
    ensures r.Some? <==> id in t.additionalSubblocks
    ensures r.Some? ==> r.value == t.additionalSubblocks[id]
  {
    if id in t.additionalSubblocks then Some(t.additionalSubblocks[id]) else None
  }

  // ---------------------------------------------------------------------------
  // What parsing a sequence of sub-blocks means
  // ---------------------------------------------------------------------------

  /** `i` is the position of the last sub-block in `blocks` whose id is `id`. */
  ghost predicate IsLastOccurrence(blocks: seq<GeneralBlock>, id: string, i: int)
  {
    0 <= i < |blocks| && blocks[i].id == id &&
    forall j :: i < j < |blocks| ==> blocks[j].id != id
  }

  /** The last sub-block of `blocks` with the given id. */
  function LastWithId(blocks: seq<GeneralBlock>, id: string): Option<GeneralBlock>
    decreases |blocks|
  {
    if blocks == [] then None
    else if blocks[|blocks| - 1].id == id then Some(blocks[|blocks| - 1])
    else LastWithId(blocks[..|blocks| - 1], id)
  }

  /** The content of the last sub-block of `blocks` with the given code. */
  function LastContent(blocks: seq<GeneralBlock>, code: string): Option<string>
  {
    match LastWithId(blocks, code)
    case None => None
    case Some(b) => Some(b.content)
  }

  /** The map of additional sub-blocks after putting each unknown sub-block in turn. */
  function AdditionalOf(blocks: seq<GeneralBlock>): map<string, GeneralBlock>
    decreases |blocks|
  {
    if blocks == [] then map[]
    else
      var m := AdditionalOf(blocks[..|blocks| - 1]);
      var b := blocks[|blocks| - 1];
      if IsKnownCode(b.id) then m else m[b.id := b]
  }

  /** The trailer that a complete sequence of sub-blocks describes. */
  function Collect(blocks: seq<GeneralBlock>): UserTrailerBlock
  {
    UserTrailerBlock(LastContent(blocks, "MAC"), LastContent(blocks, "PAC"), LastContent(blocks, "CHK"),
                     LastContent(blocks, "TNG"), LastContent(blocks, "PDE"), LastContent(blocks, "DLM"),
                     AdditionalOf(blocks))
  }

  /** What `Of` returns for a block whose content the reader turns into `stream`. */
  function OfSpec(block: GeneralBlock, stream: BlockStream): Result<UserTrailerBlock>
  {
    if block.id != BlockId5 then Failure(IllegalArgument)
    else if stream.failure.Some? then Failure(BlockFieldParse(block.id, ContentError(stream.failure.value)))
    else Success(Collect(stream.blocks))
  }

  // ---------------------------------------------------------------------------
  // Parsing and serializing
  // ---------------------------------------------------------------------------

  /**
   * Parses a trailer block. `read` is the sub-block reader: applied to the
   * block's content it gives every sub-block it yields and the error, if any,
   * it raises after them.
   */
  method Of(block: GeneralBlock, read: string -> BlockStream) returns (r: Result<UserTrailerBlock>)
    ensures r == OfSpec(block, read(block.content))
  {
    if block.id != BlockId5 {
      return Failure(IllegalArgument);
    }
    var stream := read(block.content);
    var reader := new BlockReader(stream);

    var messageAuthenticationCode: Option<string> := None;
    var proprietaryAuthenticationCode: Option<string> := None;
    var checksum: Option<string> := None;
    var training: Option<string> := None;
    var possibleDuplicateEmission: Option<string> := None;
    var deliveryDelay: Option<string> := None;
    var additionalSubblocks: map<string, GeneralBlock> := map[];

    // the number of sub-blocks whose effect is already in the local variables
    ghost var done: nat := 0;
    var step := reader.ReadBlock();
    while step.Next?
      invariant reader.Valid() && reader.stream == stream
      invariant step.Next? ==> reader.position == done + 1 && step.block == stream.blocks[done]
      invariant !step.Next? ==> reader.position == done == |stream.blocks|
      invariant step.ReadError? ==> stream.failure == Some(step.error)
      invariant step.EndOfInput? ==> stream.failure.None?
      invariant messageAuthenticationCode == LastContent(stream.blocks[..done], "MAC")
      invariant proprietaryAuthenticationCode == LastContent(stream.blocks[..done], "PAC")
      invariant checksum == LastContent(stream.blocks[..done], "CHK")
      invariant training == LastContent(stream.blocks[..done], "TNG")
      invariant possibleDuplicateEmission == LastContent(stream.blocks[..done], "PDE")
      invariant deliveryDelay == LastContent(stream.blocks[..done], "DLM")
      invariant additionalSubblocks == AdditionalOf(stream.blocks[..done])
      decreases |stream.blocks| - done
    {
      var subblock := step.block;
      assert stream.blocks[..done + 1][..done] == stream.blocks[..done];
      match subblock.id {
        case "MAC" => messageAuthenticationCode := Some(subblock.content);
        case "PAC" => proprietaryAuthenticationCode := Some(subblock.content);
        case "CHK" => checksum := Some(subblock.content);
        case "TNG" => training := Some(subblock.content);
        case "PDE" => possibleDuplicateEmission := Some(subblock.content);
        case "DLM" => deliveryDelay := Some(subblock.content);
        case _ => additionalSubblocks := additionalSubblocks[subblock.id := subblock];
      }
      done := done + 1;
      step := reader.ReadBlock();
    }
    assert stream.blocks[..done] == stream.blocks;

    if step.ReadError? {
      return Failure(BlockFieldParse(block.id, ContentError(step.error)));
    }
    r := Create(messageAuthenticationCode, proprietaryAuthenticationCode, checksum, training,
                possibleDuplicateEmission, deliveryDelay, Some(additionalSubblocks));
  }

  /** The sub-block for a known code, when its field is present. */
  function Present(code: string, value: Option<string>): seq<GeneralBlock>
  {
    match value
    case None => []
    case Some(content) => [GeneralBlock(code, content)]
  }

  /** The sub-blocks of the present fields among `codes`, in the order of `codes`. */
  function PresentBlocks(t: UserTrailerBlock, codes: seq<string>): seq<GeneralBlock>
    requires forall i :: 0 <= i < |codes| ==> IsKnownCode(codes[i])
    decreases |codes|
  {
    if codes == [] then []
    else
      var code := codes[|codes| - 1];
      PresentBlocks(t, codes[..|codes| - 1]) + Present(code, Field(t, code))
  }

  /** The known fields as sub-blocks, in the fixed order MAC, PAC, CHK, TNG, PDE, DLM. */
  function KnownBlocks(t: UserTrailerBlock): seq<GeneralBlock>
  {
    PresentBlocks(t, KnownCodeOrder)
  }

  /** The additional sub-blocks stored under the ids of `order`, in that order. */
  function AdditionalBlocks(m: map<string, GeneralBlock>, order: seq<string>): seq<GeneralBlock>
    requires forall i :: 0 <= i < |order| ==> order[i] in m
    decreases |order|
  {
    if order == [] then []
    else AdditionalBlocks(m, order[..|order| - 1]) + [m[order[|order| - 1]]]
  }

  lemma AdditionalBlocksSnoc(m: map<string, GeneralBlock>, order: seq<string>, id: string)
    requires forall i :: 0 <= i < |order| ==> order[i] in m
    requires id in m
    ensures AdditionalBlocks(m, order + [id]) == AdditionalBlocks(m, order) + [m[id]]
  {
    assert (order + [id])[..|order|] == order;
  }

  /** `order` lists every key of `keys` exactly once. */
  predicate Enumerates(order: seq<string>, keys: set<string>)
  {
    && (forall i :: 0 <= i < |order| ==> order[i] in keys)
    && (forall k :: k in keys ==> k in order)
    && (forall i, j :: 0 <= i < j < |order| ==> order[i] != order[j])
  }

  /** The sub-blocks the content of `t` is made of, the additional ones in the order `order`. */
  function EmittedBlocks(t: UserTrailerBlock, order: seq<string>): seq<GeneralBlock>
    requires Enumerates(order, t.additionalSubblocks.Keys)
  {
    KnownBlocks(t) + AdditionalBlocks(t.additionalSubblocks, order)
  }

  /** One more code appends its sub-block, when its field is present. */
  lemma PresentBlocksSnoc(t: UserTrailerBlock, codes: seq<string>, code: string)
    requires forall i :: 0 <= i < |codes| ==> IsKnownCode(codes[i])
    requires IsKnownCode(code)
    ensures forall i :: 0 <= i < |codes + [code]| ==> IsKnownCode((codes + [code])[i])
    ensures PresentBlocks(t, codes + [code]) == PresentBlocks(t, codes) + Present(code, Field(t, code))
  {
    assert (codes + [code])[..|codes|] == codes;
  }

  /** The fixed order, built up one code at a time. */
  lemma KnownCodeOrderBySnoc()
    ensures KnownCodeOrder == [] + ["MAC"] + ["PAC"] + ["CHK"] + ["TNG"] + ["PDE"] + ["DLM"]
  {
  }

  /** Each known code selects its own field. */
  lemma FieldOfCode(t: UserTrailerBlock)
    ensures Field(t, "MAC") == t.messageAuthenticationCode
    ensures Field(t, "PAC") == t.proprietaryAuthenticationCode
    ensures Field(t, "CHK") == t.checksum
    ensures Field(t, "TNG") == t.training
    ensures Field(t, "PDE") == t.possibleDuplicateEmission
    ensures Field(t, "DLM") == t.deliveryDelay
  {
    assert "MAC"[0] == 'M' && "PAC"[0] == 'P' && "CHK"[0] == 'C' && "TNG"[0] == 'T' && "DLM"[0] == 'D';
    assert "PDE"[0] == 'P' && "PDE"[1] == 'D' && "PAC"[1] == 'A';
  }

  lemma KnownBlocksUnfold(t: UserTrailerBlock)
    ensures KnownBlocks(t) ==
              Present("MAC", t.messageAuthenticationCode) + Present("PAC", t.proprietaryAuthenticationCode) +
              Present("CHK", t.checksum) + Present("TNG", t.training) +
              Present("PDE", t.possibleDuplicateEmission) + Present("DLM", t.deliveryDelay)
  {
    KnownCodeOrderBySnoc();
    FieldOfCode(t);
    var p1, p2 := Present("MAC", t.messageAuthenticationCode), Present("PAC", t.proprietaryAuthenticationCode);
    var p3, p4 := Present("CHK", t.checksum), Present("TNG", t.training);
    var p5, p6 := Present("PDE", t.possibleDuplicateEmission), Present("DLM", t.deliveryDelay);
    var c0: seq<string> := [];
    var c1 := c0 + ["MAC"];
    var c2 := c1 + ["PAC"];
    var c3 := c2 + ["CHK"];
    var c4 := c3 + ["TNG"];
    var c5 := c4 + ["PDE"];
    assert PresentBlocks(t, c1) == p1 by {
      PresentBlocksSnoc(t, c0, "MAC");
      assert PresentBlocks(t, c0) + p1 == p1;
    }
    PresentBlocksSnoc(t, c1, "PAC");
    PresentBlocksSnoc(t, c2, "CHK");
    PresentBlocksSnoc(t, c3, "TNG");
    PresentBlocksSnoc(t, c4, "PDE");
    PresentBlocksSnoc(t, c5, "DLM");
  }

  /**
   * Appends the text of the sub-block for `code` when its field is present.
   * `written` is the sequence of sub-blocks `builder` is the text of.
   */
  method AppendIfPresent(builder: string, ghost written: seq<GeneralBlock>, code: string, value: Option<string>)
    returns (text: string)
    requires builder == Render(written)
    ensures text == Render(written + Present(code, value))
  {
    text := builder;
    if value.Some? {
      RenderSnoc(written, GeneralBlock(code, value.value));
      text := text + SwiftTextOf(code, value.value);
    } else {
      assert written + Present(code, value) == written;
    }
  }

  /** The first part of the content: the present known fields, in the fixed order. */
  method KnownFieldsContent(t: UserTrailerBlock) returns (content: string)
    ensures content == Render(KnownBlocks(t))
  {
    ghost var emitted: seq<GeneralBlock> := [];
    content := "";
    content := AppendIfPresent(content, emitted, "MAC", t.messageAuthenticationCode);
    emitted := emitted + Present("MAC", t.messageAuthenticationCode);
    content := AppendIfPresent(content, emitted, "PAC", t.proprietaryAuthenticationCode);
    emitted := emitted + Present("PAC", t.proprietaryAuthenticationCode);
    content := AppendIfPresent(content, emitted, "CHK", t.checksum);
    emitted := emitted + Present("CHK", t.checksum);
    content := AppendIfPresent(content, emitted, "TNG", t.training);
    emitted := emitted + Present("TNG", t.training);
    content := AppendIfPresent(content, emitted, "PDE", t.possibleDuplicateEmission);
    emitted := emitted + Present("PDE", t.possibleDuplicateEmission);
    content := AppendIfPresent(content, emitted, "DLM", t.deliveryDelay);
    emitted := emitted + Present("DLM", t.deliveryDelay);
    KnownBlocksUnfold(t);
  }

  /**
   * Appends every sub-block of `m` to `builder`, in an order the map does not
   * fix; `order` is the order that was taken.
   */
  method AppendAdditional(builder: string, ghost written: seq<GeneralBlock>, m: map<string, GeneralBlock>)
    returns (text: string, ghost order: seq<string>)
    requires builder == Render(written)
    ensures Enumerates(order, m.Keys)
    ensures text == Render(written + AdditionalBlocks(m, order))
  {
    text := builder;
    var keys := m.Keys;
    order := [];
    assert written + AdditionalBlocks(m, order) == written;
    while keys != {}
      invariant keys <= m.Keys
      invariant forall i :: 0 <= i < |order| ==> order[i] in m && order[i] !in keys
      invariant forall k :: k in m.Keys && k !in keys ==> k in order
      invariant forall i, j :: 0 <= i < j < |order| ==> order[i] != order[j]
      invariant text == Render(written + AdditionalBlocks(m, order))
      decreases |keys|
    {
      var id :| id in keys;
      var subblock := m[id];
      RenderAdditionalSnoc(written, m, order, id);
      text := text + SwiftTextOf(subblock.id, subblock.content);
      order := order + [id];
      keys := keys - {id};
    }
  }

  /**
   * Serializes the content: the present known fields in the fixed order MAC,
   * PAC, CHK, TNG, PDE, DLM, then every additional sub-block, in an order the
   * map does not fix; `order` is the order that was taken.
   */
  method GetContent(t: UserTrailerBlock) returns (content: string, ghost order: seq<string>)
    ensures Enumerates(order, t.additionalSubblocks.Keys)
    ensures content == Render(EmittedBlocks(t, order))
  {
    var known := KnownFieldsContent(t);
    content, order := AppendAdditional(known, KnownBlocks(t), t.additionalSubblocks);
  }

  /** Emitting one more additional sub-block appends its text form. */
  lemma RenderAdditionalSnoc(known: seq<GeneralBlock>, m: map<string, GeneralBlock>, order: seq<string>, id: string)
    requires forall i :: 0 <= i < |order| ==> order[i] in m
    requires id in m
    ensures Render(known + AdditionalBlocks(m, order + [id])) ==
              Render(known + AdditionalBlocks(m, order)) + SwiftTextOf(m[id].id, m[id].content)
  {
    AdditionalBlocksSnoc(m, order, id);
    assert known + AdditionalBlocks(m, order + [id]) == (known + AdditionalBlocks(m, order)) + [m[id]];
    RenderSnoc(known + AdditionalBlocks(m, order), m[id]);
  }

  // ---------------------------------------------------------------------------
  // Properties of parsing
  // ---------------------------------------------------------------------------

  /**
   * `LastWithId` is absent exactly when no sub-block has the id, and otherwise
   * it is the sub-block at the last position with that id.
   */
  lemma {:induction false} LastWithIdIsLast(blocks: seq<GeneralBlock>, id: string)
    ensures LastWithId(blocks, id).None? <==> forall i :: 0 <= i < |blocks| ==> blocks[i].id != id
    ensures forall i :: IsLastOccurrence(blocks, id, i) ==> LastWithId(blocks, id) == Some(blocks[i])
    decreases |blocks|
  {
    if blocks != [] {
      var n := |blocks| - 1;
      var init := blocks[..n];
      LastWithIdIsLast(init, id);
      if blocks[n].id != id {
        forall i | IsLastOccurrence(blocks, id, i)
          ensures IsLastOccurrence(init, id, i)
        {
        }
      }
    }
  }

  /** In a concatenation, the last sub-block with an id is found in the second part if it has one. */
  lemma {:induction false} LastWithIdAppend(a: seq<GeneralBlock>, b: seq<GeneralBlock>, id: string)
    ensures LastWithId(a + b, id) == if LastWithId(b, id).Some? then LastWithId(b, id) else LastWithId(a, id)
    decreases |b|
  {
    if b == [] {
      assert a + b == a;
    } else {
      var n := |b| - 1;
      assert (a + b)[..|a + b| - 1] == a + b[..n];
      LastWithIdAppend(a, b[..n], id);
    }
  }

  /**
   * Each of the six fields is absent exactly when no sub-block carries its
   * code, and otherwise holds the content of the last sub-block that does.
   */
  lemma FieldIsLastOccurrence(blocks: seq<GeneralBlock>, code: string)
    requires IsKnownCode(code)
    ensures Field(Collect(blocks), code).None? <==> forall i :: 0 <= i < |blocks| ==> blocks[i].id != code
    ensures forall i :: IsLastOccurrence(blocks, code, i) ==> Field(Collect(blocks), code) == Some(blocks[i].content)
  {
    LastWithIdIsLast(blocks, code);
    assert Field(Collect(blocks), code) == LastContent(blocks, code);
  }

  /**
   * After parsing, the additional sub-block for an id is the last sub-block
   * with that id, unless the id is one of the six known codes.
   */
  lemma {:induction false} AdditionalSubblockOfCollect(blocks: seq<GeneralBlock>, id: string)
    ensures AdditionalSubblock(Collect(blocks), id) == if IsKnownCode(id) then None else LastWithId(blocks, id)
    decreases |blocks|
  {
    if blocks != [] {
      AdditionalSubblockOfCollect(blocks[..|blocks| - 1], id);
    }
  }

  /**
   * Every sub-block whose id is not a known code is stored, unchanged, under
   * its id when it is the last with that id; known codes never enter the map.
   */
  lemma AdditionalIsLastOccurrence(blocks: seq<GeneralBlock>, id: string)
    ensures id in Collect(blocks).additionalSubblocks <==>
              !IsKnownCode(id) && exists i :: 0 <= i < |blocks| && blocks[i].id == id
    ensures forall i :: !IsKnownCode(id) && IsLastOccurrence(blocks, id, i) ==>
              Collect(blocks).additionalSubblocks[id] == blocks[i]
  {
    AdditionalSubblockOfCollect(blocks, id);
    LastWithIdIsLast(blocks, id);
  }

  /** No sub-block is dropped: its code fills a field, or its id is among the additional sub-blocks. */
  lemma NothingDropped(blocks: seq<GeneralBlock>, i: int)
    requires 0 <= i < |blocks|
    ensures IsKnownCode(blocks[i].id) ==> Field(Collect(blocks), blocks[i].id).Some?
    ensures !IsKnownCode(blocks[i].id) ==> blocks[i].id in Collect(blocks).additionalSubblocks
  {
    if IsKnownCode(blocks[i].id) {
      FieldIsLastOccurrence(blocks, blocks[i].id);
    } else {
      AdditionalIsLastOccurrence(blocks, blocks[i].id);
    }
  }

  /** Every parsed trailer keeps the trailer's invariant. */
  lemma {:induction false} CollectValid(blocks: seq<GeneralBlock>)
    ensures Valid(Collect(blocks))
    decreases |blocks|
  {
    if blocks != [] {
      CollectValid(blocks[..|blocks| - 1]);
    }
  }

  /** Empty content gives a trailer with no field and no additional sub-block. */
  lemma EmptyContent(block: GeneralBlock)
    requires block.id == BlockId5
    ensures OfSpec(block, BlockStream([], None)) ==
              Success(UserTrailerBlock(None, None, None, None, None, None, map[]))
  {
  }

  /** A parsed trailer reports the id of the block it was parsed from. */
  lemma ParsedIdIsBlockId(block: GeneralBlock, stream: BlockStream)
    ensures OfSpec(block, stream).Success? ==> OfSpec(block, stream).value.Id() == block.id == "5"
  {
  }

  // ---------------------------------------------------------------------------
  // The round trip: parsing what GetContent emits gives the trailer back
  // ---------------------------------------------------------------------------

  /** The known field sub-blocks, for distinct codes, hold each listed field and no other code. */
  lemma {:induction false} PresentBlocksLast(t: UserTrailerBlock, codes: seq<string>, code: string)
    requires forall i :: 0 <= i < |codes| ==> IsKnownCode(codes[i])
    requires forall i, j :: 0 <= i < j < |codes| ==> codes[i] != codes[j]
    requires IsKnownCode(code)
    ensures LastContent(PresentBlocks(t, codes), code) == if code in codes then Field(t, code) else None
    decreases |codes|
  {
    if codes != [] {
      var n := |codes| - 1;
      var init := codes[..n];
      PresentBlocksLast(t, init, code);
      LastWithIdAppend(PresentBlocks(t, init), Present(codes[n], Field(t, codes[n])), code);
      assert code in codes <==> code in init || code == codes[n];
      if code == codes[n] {
        assert code !in init;
      }
    }
  }

  lemma {:induction false} AdditionalBlocksAt(m: map<string, GeneralBlock>, order: seq<string>)
    requires forall i :: 0 <= i < |order| ==> order[i] in m
    ensures |AdditionalBlocks(m, order)| == |order|
    ensures forall i :: 0 <= i < |order| ==> AdditionalBlocks(m, order)[i] == m[order[i]]
    decreases |order|
  {
    if order != [] {
      AdditionalBlocksAt(m, order[..|order| - 1]);
    }
  }

  /** The field sub-blocks carry known codes only. */
  lemma {:induction false} PresentBlocksKnown(t: UserTrailerBlock, codes: seq<string>)
    requires forall i :: 0 <= i < |codes| ==> IsKnownCode(codes[i])
    ensures forall i :: 0 <= i < |PresentBlocks(t, codes)| ==> IsKnownCode(PresentBlocks(t, codes)[i].id)
    decreases |codes|
  {
    if codes != [] {
      PresentBlocksKnown(t, codes[..|codes| - 1]);
    }
  }

  /** Sub-blocks with known codes put nothing in the map of additional sub-blocks. */
  lemma {:induction false} AdditionalOfKnownPrefix(a: seq<GeneralBlock>, b: seq<GeneralBlock>)
    requires forall i :: 0 <= i < |a| ==> IsKnownCode(a[i].id)
    ensures AdditionalOf(a + b) == AdditionalOf(b)
    decreases |a| + |b|
  {
    if b == [] {
      assert a + b == a;
      if a != [] {
        AdditionalOfKnownPrefix(a[..|a| - 1], []);
        assert a[..|a| - 1] + [] == a[..|a| - 1];
      }
    } else {
      var n := |b| - 1;
      assert (a + b)[..|a + b| - 1] == a + b[..n];
      AdditionalOfKnownPrefix(a, b[..n]);
    }
  }

  /** Putting the stored sub-blocks of a valid trailer back, in any order, rebuilds their map. */
  lemma {:induction false} AdditionalOfStored(t: UserTrailerBlock, order: seq<string>)
    requires Valid(t)
    requires forall i :: 0 <= i < |order| ==> order[i] in t.additionalSubblocks
    ensures AdditionalOf(AdditionalBlocks(t.additionalSubblocks, order)) ==
              map id | id in t.additionalSubblocks && id in order :: t.additionalSubblocks[id]
    decreases |order|
  {
    var m := t.additionalSubblocks;
    if order != [] {
      var n := |order| - 1;
      AdditionalOfStored(t, order[..n]);
      var blocks := AdditionalBlocks(m, order);
      assert blocks[..|blocks| - 1] == AdditionalBlocks(m, order[..n]);
      assert blocks[|blocks| - 1] == m[order[n]];
      assert forall id :: id in order <==> id in order[..n] || id == order[n];
    }
  }

  /** The fixed order lists each of the six known codes once. */
  lemma KnownCodeOrderDistinct()
    ensures forall i :: 0 <= i < |KnownCodeOrder| ==> IsKnownCode(KnownCodeOrder[i])
    ensures forall i, j :: 0 <= i < j < |KnownCodeOrder| ==> KnownCodeOrder[i] != KnownCodeOrder[j]
    ensures forall code :: IsKnownCode(code) ==> code in KnownCodeOrder
  {
    var c := KnownCodeOrder;
    assert c[0] == "MAC" && c[1] == "PAC" && c[2] == "CHK" && c[3] == "TNG" && c[4] == "PDE" && c[5] == "DLM";
    assert "MAC"[0] == 'M' && "PAC"[0] == 'P' && "CHK"[0] == 'C' && "TNG"[0] == 'T' && "DLM"[0] == 'D';
    assert "PDE"[0] == 'P' && "PDE"[1] == 'D' && "PAC"[1] == 'A';
  }

  /** In the emitted sub-blocks, the last one with a known code holds that code's field. */
  lemma EmittedField(t: UserTrailerBlock, order: seq<string>, code: string)
    requires Valid(t)
    requires Enumerates(order, t.additionalSubblocks.Keys)
    requires IsKnownCode(code)
    ensures LastContent(EmittedBlocks(t, order), code) == Field(t, code)
  {
    var extra := AdditionalBlocks(t.additionalSubblocks, order);
    AdditionalBlocksAt(t.additionalSubblocks, order);
    LastWithIdIsLast(extra, code);
    LastWithIdAppend(KnownBlocks(t), extra, code);
    KnownCodeOrderDistinct();
    PresentBlocksLast(t, KnownCodeOrder, code);
  }

  /** The emitted sub-blocks rebuild the map of additional sub-blocks. */
  lemma EmittedAdditional(t: UserTrailerBlock, order: seq<string>)
    requires Valid(t)
    requires Enumerates(order, t.additionalSubblocks.Keys)
    ensures AdditionalOf(EmittedBlocks(t, order)) == t.additionalSubblocks
  {
    var known := KnownBlocks(t);
    PresentBlocksKnown(t, KnownCodeOrder);
    AdditionalOfKnownPrefix(known, AdditionalBlocks(t.additionalSubblocks, order));
    AdditionalOfStored(t, order);
  }

  /**
   * Parsing the sub-blocks that GetContent emits gives the trailer back,
   * whatever order the additional sub-blocks were emitted in.
   */
  lemma RoundTrip(t: UserTrailerBlock, order: seq<string>)
    requires Valid(t)
    requires Enumerates(order, t.additionalSubblocks.Keys)
    ensures Collect(EmittedBlocks(t, order)) == t
  {
    EmittedField(t, order, "MAC");
    EmittedField(t, order, "PAC");
    EmittedField(t, order, "CHK");
    EmittedField(t, order, "TNG");
    EmittedField(t, order, "PDE");
    EmittedField(t, order, "DLM");
    EmittedAdditional(t, order);
  }

  /**
   * The round trip through the text: `Of` on a "5" block whose content is
   * what GetContent writes succeeds with the trailer, provided the reader
   * yields from that text exactly the sub-blocks it was written from.
   */
  lemma ContentRoundTrip(t: UserTrailerBlock, order: seq<string>, read: string -> BlockStream)
    requires Valid(t)
    requires Enumerates(order, t.additionalSubblocks.Keys)
    requires read(Render(EmittedBlocks(t, order))) == BlockStream(EmittedBlocks(t, order), None)
    ensures var content := Render(EmittedBlocks(t, order));
            OfSpec(GeneralBlock(BlockId5, content), read(content)) == Success(t)
  {
    RoundTrip(t, order);
  }

  /**
   * Collecting the sub-blocks that a parsed trailer's content is written
   * from gives that trailer back, whatever order the additional sub-blocks
   * were written in.
   */
  lemma ReparseIsStable(blocks: seq<GeneralBlock>, order: seq<string>)
    requires Enumerates(order, Collect(blocks).additionalSubblocks.Keys)
    ensures Collect(EmittedBlocks(Collect(blocks), order)) == Collect(blocks)
  {
    CollectValid(blocks);
    RoundTrip(Collect(blocks), order);
  }

  /**
   * Writing a parsed trailer back and parsing the text again gives the same
   * trailer, provided the reader yields from that text exactly the sub-blocks
   * it was written from.
   */
  lemma ContentReparseIsStable(blocks: seq<GeneralBlock>, order: seq<string>, read: string -> BlockStream)
    requires Enumerates(order, Collect(blocks).additionalSubblocks.Keys)
    requires read(Render(EmittedBlocks(Collect(blocks), order))) ==
             BlockStream(EmittedBlocks(Collect(blocks), order), None)
    ensures var content := Render(EmittedBlocks(Collect(blocks), order));
            OfSpec(GeneralBlock(BlockId5, content), read(content)) == Success(Collect(blocks))
  {
    CollectValid(blocks);
    ContentRoundTrip(Collect(blocks), order, read);
  }
}
