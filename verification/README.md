# SWIFT message blocks: user trailer and output application header

A Dafny model of two typed block parsers of a SWIFT message library. A SWIFT
message is a run of `{id:content}` blocks; each typed parser takes one raw
block (`GeneralBlock`: an id and the verbatim content) and turns it into a
typed block or a failure.

- **User trailer block, block "5"** (`UserTrailer`). Its content is itself a
  run of sub-blocks. `Of` reads them one by one from a sub-block reader and
  routes the six known codes (MAC, PAC, CHK, TNG, PDE, DLM) to six optional
  fields, the last occurrence winning; every other sub-block is stored, by id,
  among the additional sub-blocks. A reader error becomes a field-parse
  failure that keeps the reader's error as its cause. `GetContent` writes the
  content back: the present known fields in the fixed order MAC, PAC, CHK,
  TNG, PDE, DLM, then the additional sub-blocks in an order the map does not
  fix. `Of` and `GetContent` are methods with loops, as in the source; they
  are proved against the functions `OfSpec`/`Collect` and `Render`/
  `EmittedBlocks`, and the lemmas state what those mean: last occurrence
  wins, nothing is dropped, the parsed trailer keeps its invariant (`Valid`),
  and parsing the emitted sub-blocks gives the trailer back, whatever the
  order of the additional sub-blocks.
- **Output application header block, block "2"** (`ApplicationHeaderOutput`).
  A 47-character positional format: the mode `O`, then message type, input
  time, input date, message input reference, session number, sequence number,
  output date, output time and priority. `Of` is a pure function over fixed
  slices; the lemmas tie the slices to the layout's field widths, show that
  the ten groups tile the content, that the whole-content check is the same as
  the pattern read group by group, and that the separate mode check can never
  fail after a match.

Shared vocabulary is in `SwiftBlock`: the raw block, its text form
`SwiftTextOf(id, content) = "{" + id + ":" + content + "}"`, the failures
(`IllegalArgument` for a violated argument precondition, `BlockFieldParse`
with a reason, `DateTimeParse`, `UnknownPriority`), and `BlockStream`/
`BlockReader`, the sub-block reader's output and calling protocol.

External collaborators are parameters: the sub-block reader is a function
`string -> BlockStream` (the blocks it yields over the content and the error it
raises after them, if any); the `yyMMddHHmm` date-time parser and the message
priority lookup are partial functions `string -> Option<...>`.

Three behaviours of the source that the model keeps:
- A date-time slice that does not parse aborts `Of` with the parser's own
  error (`DateTimeParse`); it is not wrapped into a field-parse failure.
- The mode check after the match is dead code, since the pattern's first group
  is the literal `O`; a content with `I` first fails the pattern match itself.
- The additional sub-blocks are kept in a hash map, so their order in the
  written content need not be the order they were read in; the model says so
  with the ghost `order` that `GetContent` returns.

## Model

| member | source | states |
|---|---|---|
| `SwiftBlock.SwiftTextOfInjective` | src/main/java/com/qoomon/banking/swift/message/block/UserTrailerBlock.java:26 | the brace form `{id:content}` of a sub-block determines its id and content when the id has no `:` |
| `SwiftBlock.BlockReader.constructor` | src/main/java/com/qoomon/banking/swift/message/block/UserTrailerBlock.java:65 | a fresh reader over a block's content starts before its first sub-block |
| `SwiftBlock.BlockReader.ReadBlock` | src/main/java/com/qoomon/banking/swift/message/block/UserTrailerBlock.java:76-77 | each read returns the next sub-block in order; after the last one it reports the end of input (the null of the source) or raises the reader's error |
| `UserTrailer.Create` | src/main/java/com/qoomon/banking/swift/message/block/UserTrailerBlock.java:49-60 | the constructor fails with an argument error exactly when the additional sub-block map is missing; otherwise each field getter returns its argument, absent fields staying absent |
| `UserTrailer.AdditionalSubblock` | src/main/java/com/qoomon/banking/swift/message/block/UserTrailerBlock.java:125-127 | returns the stored sub-block for the id, and nothing exactly when none is stored |
| `UserTrailer.Of` | src/main/java/com/qoomon/banking/swift/message/block/UserTrailerBlock.java:62-107 | the sub-block loop computes `OfSpec`: an argument error for an id other than "5"; a field-parse failure wrapping the reader's error if the reader fails at any point; otherwise each field holds the content of the last sub-block with its code and the map holds the last sub-block of every other id |
| `UserTrailer.LastWithIdIsLast` | src/main/java/com/qoomon/banking/swift/message/block/UserTrailerBlock.java:77-99 | the sub-block retained for an id is absent exactly when no sub-block has that id, and otherwise is the one at the last position with that id (later assignments and `put`s overwrite earlier ones) |
| `UserTrailer.FieldIsLastOccurrence` | src/main/java/com/qoomon/banking/swift/message/block/UserTrailerBlock.java:67-96 | MAC, PAC, CHK, TNG, PDE and DLM each set their field exactly when a sub-block with that code appears, to the content of the last one; otherwise the field is absent |
| `UserTrailer.AdditionalSubblockOfCollect` | src/main/java/com/qoomon/banking/swift/message/block/UserTrailerBlock.java:97-98 | after parsing, the additional sub-block for an id is the last sub-block with that id, and never exists for one of the six known codes |
| `UserTrailer.AdditionalIsLastOccurrence` | src/main/java/com/qoomon/banking/swift/message/block/UserTrailerBlock.java:97-98 | an id is in the additional map exactly when it is not a known code and some sub-block has it; the stored sub-block is the last such one, id and content unchanged |
| `UserTrailer.NothingDropped` | src/main/java/com/qoomon/banking/swift/message/block/UserTrailerBlock.java:78-99 | every sub-block read either fills the field of its code or has its id in the additional map |
| `UserTrailer.CollectValid` | src/main/java/com/qoomon/banking/swift/message/block/UserTrailerBlock.java:97-98 | every parsed trailer stores each additional sub-block under its own id, and no such id is a known code |
| `UserTrailer.EmptyContent` | src/main/java/com/qoomon/banking/swift/message/block/UserTrailerBlock.java:67-73 | a "5" block with no sub-blocks parses to all six fields absent and an empty additional map |
| `UserTrailer.ParsedIdIsBlockId` | src/main/java/com/qoomon/banking/swift/message/block/UserTrailerBlock.java:137-140 | a parsed trailer's id, as `UserTrailerBlock.Id` (the getter `getId`) returns it, is "5", the id of the block it was parsed from |
| `UserTrailer.AppendIfPresent` | src/main/java/com/qoomon/banking/swift/message/block/UserTrailerBlock.java:145-147 | appends the brace form of a known field's sub-block when the field is present, and nothing when it is absent |
| `UserTrailer.KnownFieldsContent` | src/main/java/com/qoomon/banking/swift/message/block/UserTrailerBlock.java:144-162 | the first part of the content is the text of the present known fields, in the order MAC, PAC, CHK, TNG, PDE, DLM |
| `UserTrailer.AppendAdditional` | src/main/java/com/qoomon/banking/swift/message/block/UserTrailerBlock.java:164-166 | appends the brace form of every additional sub-block exactly once, in an order of the map's keys that it reports |
| `UserTrailer.GetContent` | src/main/java/com/qoomon/banking/swift/message/block/UserTrailerBlock.java:142-168 | the content is the text of the present known fields in the fixed order followed by every additional sub-block exactly once, in some enumeration order of the map's keys |
| `UserTrailer.RoundTrip` | src/main/java/com/qoomon/banking/swift/message/block/UserTrailerBlock.java:142-168 | for a valid trailer and any order of the additional sub-blocks, collecting the sub-blocks that the content is written from (last occurrence per code, every other id put in the map) gives the same trailer back |
| `UserTrailer.ContentRoundTrip` | src/main/java/com/qoomon/banking/swift/message/block/UserTrailerBlock.java:62-107 | when the reader yields from the written content exactly the sub-blocks it was written from, `OfSpec` (what `Of` returns) on a "5" block with that content succeeds with the same trailer |
| `UserTrailer.ReparseIsStable` | src/main/java/com/qoomon/banking/swift/message/block/UserTrailerBlock.java:62-107 | collecting the sub-blocks that a parsed trailer's content is written from gives that trailer back, for any order of the additional sub-blocks |
| `UserTrailer.ContentReparseIsStable` | src/main/java/com/qoomon/banking/swift/message/block/UserTrailerBlock.java:62-107 | when the reader yields from a parsed trailer's written content exactly the sub-blocks it was written from, `OfSpec` (what `Of` returns) on a "5" block with that content succeeds with the same trailer |
| `ApplicationHeaderOutput.Create` | src/main/java/com/qoomon/banking/swift/message/block/ApplicationHeaderOutputBlock.java:52-69 | the constructor fails with an argument error exactly when one of the seven arguments is missing; otherwise each getter returns its argument unchanged |
| `ApplicationHeaderOutput.Of` | src/main/java/com/qoomon/banking/swift/message/block/ApplicationHeaderOutputBlock.java:71-93 | an id other than "2" is an argument error; content failing `MatchesContentPattern` (47 characters, 'O' first, no line terminator after) is a pattern failure; date-time and priority failures abort in source order; on success, reading the groups (`Group`, the matcher's `group(k)`), message type, input reference, session and sequence number are content[1..4], [14..26], [26..30], [30..36], the input date-time is parsed from content[8..14] + content[4..8], the output one from content[36..42] + content[42..46], the priority from content[46..47]; the mode failure never occurs |
| `ApplicationHeaderOutput.GroupsFollowLayout` | src/main/java/com/qoomon/banking/swift/message/block/ApplicationHeaderOutputBlock.java:17-26 | group k of the content starts where the widths 1, 3, 4, 6, 12, 4, 6, 6, 4, 1 of the groups before it end and is as wide as the layout says |
| `ApplicationHeaderOutput.GroupsArePrefix` | src/main/java/com/qoomon/banking/swift/message/block/ApplicationHeaderOutputBlock.java:17-26 | groups 1 to n, one after the other, are exactly the content up to where the layout puts the end of group n |
| `ApplicationHeaderOutput.GroupsPartitionContent` | src/main/java/com/qoomon/banking/swift/message/block/ApplicationHeaderOutputBlock.java:40 | the ten groups of the pattern, one after the other, are exactly the content: no character is skipped or read twice |
| `ApplicationHeaderOutput.PatternByGroups` | src/main/java/com/qoomon/banking/swift/message/block/ApplicationHeaderOutputBlock.java:40 | `MatchesContentPattern`, the whole-content match of the pattern (47 characters, 'O' first, no line terminator after it), holds exactly when `Group(content, 1)`, the pattern's group 1, is "O" and groups 2 to 10 hold only characters that `.` matches without DOTALL |
| `ApplicationHeaderOutput.ModeCheckUnreachable` | src/main/java/com/qoomon/banking/swift/message/block/ApplicationHeaderOutputBlock.java:79-82 | whenever the content pattern matches, the mode group is "O", so the mode check cannot fail |
| `ApplicationHeaderOutput.ExampleMatches` | src/main/java/com/qoomon/banking/swift/message/block/ApplicationHeaderOutputBlock.java:30 | the documented example content matches the content pattern |
| `ApplicationHeaderOutput.ExampleContent` | src/main/java/com/qoomon/banking/swift/message/block/ApplicationHeaderOutputBlock.java:30 | the documented example content parses (when its dates and priority are known) to message type 100, reference BANKBEBBAXXX, session 2222, sequence 123456, the input date-time parsed from 9701031200, the output one from 9701031201 and the priority of code N |

## Left out

- The sub-block reader (`SwiftBlockReader`, with its brace-depth tokenizing) is not part of this model: what it yields over a content is an input, a `BlockStream`, and `BlockReader` only replays it.
- `BlockUtils.swiftTextOf` is not part of this model; it is taken to be the brace form `{id:content}`, as in the documented example.
- Date-time parsing (`LocalDateTime.parse` with the `yyMMddHHmm` formatter: two-digit-year base, the resolver's handling of days 29 to 31) is a parameter; the model says only which ten-character text is parsed and that a failure aborts parsing.
- `MessagePriority.of` is not part of this model; it is a partial lookup parameter, and a code it does not know is modelled as an `UnknownPriority` failure, since its own failure behaviour is not visible.
- `LocalDateTime` is a plain record of year, month, day, hour and minute, produced only by the date-time parameter.
- `UserTrailer.GetContent`: does not fix the order of the additional sub-blocks, because the source takes the iteration order of a hash map; the ghost `order` names the order taken, and the round trip holds for every order.
- `UserTrailer.KnownFieldsContent`, `UserTrailer.AppendIfPresent` and `UserTrailer.AppendAdditional` split `getContent`, one method in the source, into its six conditional appends and its loop over the map, to keep each proof small; the text produced is the same.
- `UserTrailer.ContentRoundTrip` and `UserTrailer.ContentReparseIsStable`: the round trip through the text rests on the reader; each lemma takes as a hypothesis that the reader yields from the written content exactly the sub-blocks it was written from, since the reader is not part of this model (and a content holding braces need not read back as one sub-block).
- Null handling beyond the constructors' checks (a null block, null ids, contents or map entries, which `ImmutableMap.copyOf` would reject) is not modelled: strings and maps here are never null.
- Exception message texts, including the format string of the id check in the trailer parser, are not modelled; failures are told apart by kind, block id and cause.
- The `StringReader` plumbing of the trailer parser is not modelled.
