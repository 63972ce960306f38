/**
 * The shared vocabulary of the block parsers: the raw `{id:content}` block,
 * its text form, the failures a typed block parser reports, and the stream of
 * sub-blocks that the block reader hands to a parser whose content nests.
 */
module SwiftBlock {

  datatype Option<+T> = None | Some(value: T)

  /** A raw block as the reader produces it: the id and the verbatim content. */
  datatype GeneralBlock = GeneralBlock(id: string, content: string)

  /** A failure raised by the block reader itself (a structural error). */
  datatype BlockError = BlockError(message: string)

  /** Why a typed block parser rejected the content of a block. */
  datatype FieldParseReason =
    | ContentPatternMismatch            // the fixed-width pattern did not match
    | ModeMismatch(mode: string)        // the mode group was not the expected code
    | ContentError(cause: BlockError)   // the sub-block reader failed; the cause is kept

  /** The failures of the typed block parsers. */
  datatype ParseFailure =
    | IllegalArgument                                     // a violated argument precondition
    | BlockFieldParse(blockId: string, reason: FieldParseReason)
    | DateTimeParse(text: string)                         // a date-time slice did not parse
    | UnknownPriority(code: string)                       // no message priority for the code

  datatype Result<+T> = Success(value: T) | Failure(error: ParseFailure)

  /** The text form of a block: `{`, the id, `:`, the content, `}`. */
  function SwiftTextOf(id: string, content: string): string
  {
    "{" + id + ":" + content + "}"
  }

  /** The text of a sequence of blocks, one after the other with no separator. */
  function Render(blocks: seq<GeneralBlock>): string
    decreases |blocks|
  {
    if blocks == [] then ""
    else
      var last := blocks[|blocks| - 1];
      Render(blocks[..|blocks| - 1]) + SwiftTextOf(last.id, last.content)
  }

  /**
   * The id of a block ends at the first ':' of its text form, so an id without
   * ':' and the content can be read back from the text of a single block
   * unambiguously. For a sequence of blocks this does not carry over: a
   * content that holds braces can make two sequences render to the same text,
   * so reading a text back into blocks is left to the block reader.
   */
  lemma SwiftTextOfInjective(id1: string, content1: string, id2: string, content2: string)
    requires ':' !in id1 && ':' !in id2
    requires SwiftTextOf(id1, content1) == SwiftTextOf(id2, content2)
    ensures id1 == id2 && content1 == content2
  {
    var t := SwiftTextOf(id1, content1);
    assert t == SwiftTextOf(id2, content2);
    assert forall i :: 0 <= i < |id1| ==> t[1 + i] == id1[i];
    assert forall i :: 0 <= i < |id2| ==> t[1 + i] == id2[i];
    assert t[1 + |id1|] == ':' && t[1 + |id2|] == ':';
    if |id1| != |id2| {
      assert false;
    }
    assert id1 == t[1..1 + |id1|] == id2;
    assert content1 == t[2 + |id1|..|t| - 1] == content2;
  }

  /** Appending a block appends its text form. */
  lemma RenderSnoc(blocks: seq<GeneralBlock>, b: GeneralBlock)
    ensures Render(blocks + [b]) == Render(blocks) + SwiftTextOf(b.id, b.content)
  {
    assert (blocks + [b])[..|blocks|] == blocks;
  }

  /**
   * Everything a block reader yields when it is run over a text: the blocks
   * it returns, in order, and the error it raises after the last of them, or
   * None when it reaches the end of the input.
   */
  datatype BlockStream = BlockStream(blocks: seq<GeneralBlock>, failure: Option<BlockError>)

  /** The outcome of one read: a block, the end of the input, or an error. */
  datatype ReadStep = Next(block: GeneralBlock) | EndOfInput | ReadError(error: BlockError)

  /**
   * The calling protocol of the block reader: each `ReadBlock` hands back the
   * next block of the stream; once the blocks are used up it reports the end
   * of the input or raises the stream's error.
   */
  class BlockReader {
    const stream: BlockStream
    var position: nat

    ghost predicate Valid()
      reads this
    {
      position <= |stream.blocks|
    }

    constructor (stream: BlockStream)
      ensures Valid() && this.stream == stream && position == 0
    {
      this.stream := stream;
      position := 0;
    }

    method ReadBlock() returns (step: ReadStep)
      requires Valid()
      modifies this
      ensures Valid()
      ensures old(position) < |stream.blocks| ==>
                step == Next(stream.blocks[old(position)]) && position == old(position) + 1
      ensures old(position) == |stream.blocks| ==>
                position == old(position) &&
                step == (if stream.failure.Some? then ReadError(stream.failure.value) else EndOfInput)
    {
      if position < |stream.blocks| {
        step := Next(stream.blocks[position]);
        position := position + 1;
      } else if stream.failure.Some? {
        step := ReadError(stream.failure.value);
      } else {
        step := EndOfInput;
      }
    }
  }
}
